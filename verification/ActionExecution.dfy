/**
 The governed execution protocol: `execute_action_request` split at each of its commits.

 Any number of callers run the protocol at the same time against one database, and any number
 of deciders approve and reject beside them. A caller may stop for good between any two of its
 steps. The only arbiter between callers is the UNIQUE
 constraint on `action_executions.idempotency_key`. Executions and attempts are never
 deleted, so each is named by its position in its table.
 */
module ActionExecution {
  import opened Decisions
  import opened Wrappers

  datatype ExecStatus = Pending | Running | Succeeded | Failed | Unknown

  datatype Execution = Execution(request: nat, key: string, status: ExecStatus)

  datatype Attempt = Attempt(execution: nat, number: nat, status: ExecStatus)

  /** The tables the protocol reads and writes; a request is named by its id. */
  datatype Db = Db(requests: map<nat, RequestStatus>, executions: seq<Execution>, attempts: seq<Attempt>)

  /** What the adapter does: it answers with any status at all, or it raises. */
  datatype Outcome = Answers(status: ExecStatus) | Raises

  /** Where one call stands between two of its database round trips. */
  datatype Phase =
    | Arrived
    | Authorized                              // read the request: APPROVED
    | Cleared                                 // read its executions: nothing in the way
    | Contended                               // the insert hit the unique key
    | Claimed(e: nat)                         // committed a PENDING execution
    | Started(e: nat, a: nat)                 // committed RUNNING and the attempt
    | Invoked(e: nat, a: nat, outcome: Outcome)
    | Recorded(e: nat, a: nat)                // committed the adapter's answer
    | Returned(e: nat)
    | Refused
    | Stopped                                 // the process died, or the call ended in an exception

  datatype Caller = Caller(request: nat, key: string, phase: Phase)

  /** One invocation of the adapter. */
  datatype Call = Call(caller: nat, execution: nat, request: nat, key: string)

  /** The deciders there have been, and their commits. */
  datatype Desk = Desk(deciders: map<nat, Decider>, log: seq<Commitment>)

  datatype World = World(db: Db, callers: map<nat, Caller>, calls: seq<Call>, desk: Desk)

  /** What happens to requests: they are asked for, and deciders read and commit. */
  datatype Deciding =
    | Ask(request: nat)
    | Consider(d: nat, request: nat, target: RequestStatus)
    | Settle(d: nat)
    | Withdraw(d: nat)

  datatype Event =
    | Arrive(c: nat, request: nat, key: Option<string>)
    | Authorize(c: nat)
    | Guard(c: nat, preferReplay: bool)
    | Claim(c: nat)
    | Resolve(c: nat)
    | Start(c: nat)
    | Invoke(c: nat, outcome: Outcome)
    | Record(c: nat)
    | Fault(c: nat, recovers: bool)
    | Finish(c: nat)
    | Stop(c: nat)
    | Decide(m: Deciding)

  // ---------------------------------------------------------------- what a caller reads

  function DefaultKey(request: nat): string {
    "exec_" + Digits(request)
  }

  function Digit(n: nat): char
    requires n < 10
  {
    ('0' as int + n) as char
  }

  function Digits(n: nat): string {
    if n < 10 then [Digit(n)] else Digits(n / 10) + [Digit(n % 10)]
  }

  /** A missing key and an empty key both fall back to the request's own key. */
  function KeyFor(request: nat, key: Option<string>): string {
    if key.None? || key.value == "" then DefaultKey(request) else key.value
  }

  predicate IsApproved(db: Db, request: nat) {
    request in db.requests && db.requests[request] == Approved
  }

  predicate HasKey(db: Db, key: string) {
    exists e :: 0 <= e < |db.executions| && db.executions[e].key == key
  }

  ghost function ByKey(db: Db, key: string): (e: nat)
    requires HasKey(db, key)
    ensures e < |db.executions| && db.executions[e].key == key
  {
    var e :| 0 <= e < |db.executions| && db.executions[e].key == key; e
  }

  predicate Blocking(s: ExecStatus) {
    s == Succeeded || s == Running || s == Unknown
  }

  /** An earlier execution of this request under this very key: it is returned as is. */
  predicate Replays(db: Db, request: nat, key: string) {
    exists e :: 0 <= e < |db.executions| && db.executions[e].request == request && db.executions[e].key == key
  }

  /** An execution of this request under another key that is done, running or unknown. */
  predicate Blocked(db: Db, request: nat, key: string) {
    exists e :: 0 <= e < |db.executions| && db.executions[e].request == request
      && db.executions[e].key != key && Blocking(db.executions[e].status)
  }

  // ---------------------------------------------------------------- the step function

  /** Both rows take the status; a caller that names a row always owns one (OwnedRow). */
  function SetStatus(db: Db, e: nat, a: nat, s: ExecStatus): Db {
    if e >= |db.executions| || a >= |db.attempts| then db
    else db.(executions := db.executions[e := db.executions[e].(status := s)],
        attempts := db.attempts[a := db.attempts[a].(status := s)])
  }

  function Move(w: World, c: nat, phase: Phase): World
    requires c in w.callers
  {
    w.(callers := w.callers[c := w.callers[c].(phase := phase)])
  }

  /** The commit writes over whatever status it finds. */
  function DecideStep(w: World, m: Deciding): World {
    match m
    case Ask(r) => if r in w.db.requests then w else SetRequest(w, r, PendingApproval)
    case Consider(d, r, target) =>
      if d in w.desk.deciders || r !in w.db.requests || !CanTransition(w.db.requests[r], target) then w
      else SetDecider(w, d, Decider(r, w.db.requests[r], target, false))
    case Settle(d) =>
      if d !in w.desk.deciders || w.desk.deciders[d].over || w.desk.deciders[d].request !in w.db.requests then w
      else
        var me := w.desk.deciders[d];
        var found := w.db.requests[me.request];
        SetRequest(SetDecider(w, d, me.(over := true)), me.request, me.target)
          .(desk := Desk(w.desk.deciders[d := me.(over := true)],
                         w.desk.log + [Commitment(me.request, me.read, found, me.target)]))
    case Withdraw(d) =>
      if d !in w.desk.deciders then w else SetDecider(w, d, w.desk.deciders[d].(over := true))
  }

  function SetRequest(w: World, r: nat, status: RequestStatus): World {
    w.(db := w.db.(requests := w.db.requests[r := status]))
  }

  function SetDecider(w: World, d: nat, decider: Decider): World {
    w.(desk := w.desk.(deciders := w.desk.deciders[d := decider]))
  }

  /** One step. An event that is not enabled leaves the world alone. */
  ghost function Step(w: World, ev: Event): World {
    match ev
    case Arrive(c, r, k) =>
      if c in w.callers then w
      else w.(callers := w.callers[c := Caller(r, KeyFor(r, k), Arrived)])
    case Decide(m) => DecideStep(w, m)
    case _ =>
      if ev.c !in w.callers then w else CallerStep(w, ev)
  }

  ghost function CallerStep(w: World, ev: Event): World
    requires !ev.Arrive? && !ev.Decide? && ev.c in w.callers
  {
    var me := w.callers[ev.c];
    match (ev, me.phase)
    case (Authorize(c), Arrived) =>
      if IsApproved(w.db, me.request) then Move(w, c, Authorized)
      else Move(w, c, Refused)
    case (Guard(c, preferReplay), Authorized) =>
      // The rows come back in no particular order, so when both kinds exist either may be met first.
      if Replays(w.db, me.request, me.key) && (preferReplay || !Blocked(w.db, me.request, me.key))
      then Move(w, c, Returned(ByKey(w.db, me.key)))
      else if Blocked(w.db, me.request, me.key) then Move(w, c, Refused)
      else Move(w, c, Cleared)
    case (Claim(c), Cleared) =>
      if HasKey(w.db, me.key) then Move(w, c, Contended)
      else Move(w.(db := w.db.(executions := w.db.executions + [Execution(me.request, me.key, Pending)])),
                c, Claimed(|w.db.executions|))
    case (Resolve(c), Contended) =>
      if HasKey(w.db, me.key) then Move(w, c, Returned(ByKey(w.db, me.key))) else Move(w, c, Refused)
    case (Start(c), Claimed(e)) =>
      if e >= |w.db.executions| then w else
      var db := w.db.(executions := w.db.executions[e := w.db.executions[e].(status := Running)],
                      attempts := w.db.attempts + [Attempt(e, 1, Running)]);
      Move(w.(db := db), c, Started(e, |w.db.attempts|))
    case (Invoke(c, outcome), Started(e, a)) =>
      Move(w.(calls := w.calls + [Call(c, e, me.request, me.key)]), c, Invoked(e, a, outcome))
    case (Record(c), Invoked(e, a, Answers(s))) =>
      Move(w.(db := SetStatus(w.db, e, a, s)), c, Recorded(e, a))
    case (Fault(c, recovers), Invoked(e, a, _)) =>
      // The handler rolls back first. If the rows it then touches were expired by that, it raises itself.
      if recovers then Move(w.(db := SetStatus(w.db, e, a, Unknown)), c, Returned(e)) else Move(w, c, Stopped)
    case (Fault(c, recovers), Recorded(e, a)) =>
      if recovers then Move(w.(db := SetStatus(w.db, e, a, Unknown)), c, Returned(e)) else Move(w, c, Stopped)
    case (Finish(c), Recorded(e, _)) =>
      Move(w, c, Returned(e))
    case (Stop(c), _) =>
      if Over(me.phase) then w else Move(w, c, Stopped)
    case _ => w
  }

  ghost function Run(w: World, events: seq<Event>): World
    decreases |events|
  {
    if events == [] then w else Run(Step(w, events[0]), events[1..])
  }

  // ---------------------------------------------------------------- the invariant

  predicate Owning(p: Phase) {
    p.Claimed? || p.Started? || p.Invoked? || p.Recorded?
  }

  predicate Over(p: Phase) {
    p.Returned? || p.Refused? || p.Stopped?
  }

  /** Phases from which the adapter may still be invoked. */
  predicate BeforeInvocation(p: Phase) {
    p.Claimed? || p.Started?
  }

  predicate InRange(w: World) {
    forall c :: c in w.callers && Owning(w.callers[c].phase) ==> OwnedRow(w.db, w.callers[c])
  }

  /** What the database holds for a caller that owns an execution. */
  predicate OwnedRow(db: Db, me: Caller)
    requires Owning(me.phase)
  {
    var p := me.phase;
    && p.e < |db.executions|
    && db.executions[p.e].key == me.key
    && db.executions[p.e].request == me.request
    && (p.Claimed? ==> db.executions[p.e].status == Pending)
    && (!p.Claimed? ==> p.a < |db.attempts| && db.attempts[p.a].execution == p.e)
    && (p.Started? || p.Invoked? ==> db.executions[p.e].status == Running)
  }

  predicate KeysUnique(db: Db) {
    forall i, j :: 0 <= i < j < |db.executions| ==> db.executions[i].key != db.executions[j].key
  }

  predicate OneAttemptEach(db: Db) {
    && (forall a :: 0 <= a < |db.attempts| ==> db.attempts[a].execution < |db.executions|)
    && (forall a, b :: 0 <= a < b < |db.attempts| ==> db.attempts[a].execution != db.attempts[b].execution)
  }

  predicate OwnersDiffer(w: World) {
    forall c, d :: c in w.callers && d in w.callers && c != d
      && Owning(w.callers[c].phase) && Owning(w.callers[d].phase)
      ==> w.callers[c].phase.e != w.callers[d].phase.e
  }

  predicate ClaimedHasNoAttempt(w: World) {
    forall c, a :: c in w.callers && w.callers[c].phase.Claimed? && 0 <= a < |w.db.attempts|
      ==> w.db.attempts[a].execution != w.callers[c].phase.e
  }

  /** The adapter log: each call names a stored execution, and no execution is named twice. */
  predicate CallsSound(w: World) {
    && (forall k :: 0 <= k < |w.calls| ==> CallSound(w, w.calls[k]))
    && (forall j, k :: 0 <= j < k < |w.calls| ==> w.calls[j].execution != w.calls[k].execution)
    && (forall c, k :: c in w.callers && BeforeInvocation(w.callers[c].phase) && 0 <= k < |w.calls|
          ==> w.calls[k].execution != w.callers[c].phase.e)
  }

  predicate CallSound(w: World, call: Call) {
    && call.execution < |w.db.executions|
    && w.db.executions[call.execution].key == call.key
    && w.db.executions[call.execution].request == call.request
    && Logged(w.db, call.execution)
  }

  /** The attempt row is committed before the adapter hears of the execution. */
  predicate Logged(db: Db, e: nat) {
    exists a :: 0 <= a < |db.attempts| && db.attempts[a].execution == e
  }

  ghost predicate RowsSound(w: World) {
    && InRange(w) && KeysUnique(w.db) && OneAttemptEach(w.db) && OwnersDiffer(w) && ClaimedHasNoAttempt(w)
  }

  predicate DecidersSound(w: World) {
    forall d :: d in w.desk.deciders ==> w.desk.deciders[d].target != PendingApproval
  }

  ghost predicate Inv(w: World) {
    RowsSound(w) && CallsSound(w) && DecidersSound(w)
  }

  // ---------------------------------------------------------------- preservation

  lemma StepKeepsInv(w: World, ev: Event)
    requires Inv(w)
    ensures Inv(Step(w, ev))
  {
    match ev {
      case Arrive(c, r, k) =>
        if c !in w.callers { ArriveKeepsInv(w, c, Caller(r, KeyFor(r, k), Arrived)); }
      case Decide(m) => DecideKeepsInv(w, m);
      case _ =>
        if ev.c in w.callers { CallerStepKeepsInv(w, ev); }
    }
  }

  lemma ArriveKeepsInv(w: World, c: nat, me: Caller)
    requires Inv(w) && c !in w.callers && me.phase == Arrived
    ensures Inv(w.(callers := w.callers[c := me]))
  {
    var w' := w.(callers := w.callers[c := me]);
    assert forall k :: 0 <= k < |w.calls| ==> CallSound(w, w.calls[k]) && CallSound(w', w'.calls[k]);
    assert forall d :: d in w.callers ==> w'.callers[d] == w.callers[d];
  }

  lemma DecideKeepsInv(w: World, m: Deciding)
    requires Inv(w)
    ensures Inv(DecideStep(w, m))
  {
    var w' := DecideStep(w, m);
    assert forall k :: 0 <= k < |w.calls| ==> CallSound(w, w.calls[k]) && CallSound(w', w'.calls[k]);
  }

  lemma CallerStepKeepsInv(w: World, ev: Event)
    requires Inv(w) && !ev.Arrive? && !ev.Decide? && ev.c in w.callers
    ensures Inv(CallerStep(w, ev))
  {
    var c := ev.c;
    var phase := w.callers[c].phase;
    if ev.Claim? && phase.Cleared? && !HasKey(w.db, w.callers[c].key) {
      ClaimKeepsInv(w, c);
    } else if ev.Start? && phase.Claimed? {
      StartKeepsInv(w, c);
    } else if ev.Invoke? && phase.Started? {
      InvokeKeepsInv(w, c, ev.outcome);
    } else if ev.Record? && phase.Invoked? && phase.outcome.Answers? {
      SetStatusKeepsInv(w, c, phase.outcome.status, Recorded(phase.e, phase.a));
    } else if ev.Fault? && ev.recovers && (phase.Invoked? || phase.Recorded?) {
      SetStatusKeepsInv(w, c, Unknown, Returned(phase.e));
    } else {
      QuietStep(w, ev);
      var next := CallerStep(w, ev);
      if next != w { MoveKeepsInv(w, c, next.callers[c].phase); }
    }
  }

  /** The remaining steps touch nothing but the caller's own phase. */
  lemma QuietStep(w: World, ev: Event)
    requires Inv(w) && !ev.Arrive? && !ev.Decide? && ev.c in w.callers
    requires ev.Claim? && w.callers[ev.c].phase.Cleared? ==> HasKey(w.db, w.callers[ev.c].key)
    requires ev.Start? ==> !w.callers[ev.c].phase.Claimed?
    requires ev.Invoke? ==> !w.callers[ev.c].phase.Started?
    requires ev.Record? && w.callers[ev.c].phase.Invoked? ==> w.callers[ev.c].phase.outcome.Raises?
    requires ev.Fault? && ev.recovers ==> !w.callers[ev.c].phase.Invoked? && !w.callers[ev.c].phase.Recorded?
    ensures CallerStep(w, ev) == w
         || exists p :: !Owning(p) && CallerStep(w, ev) == Move(w, ev.c, p)
  {
    var next := CallerStep(w, ev);
    if next != w {
      var p := next.callers[ev.c].phase;
      assert !Owning(p) && next == Move(w, ev.c, p);
    }
  }

  lemma MoveKeepsInv(w: World, c: nat, p: Phase)
    requires Inv(w) && c in w.callers && !Owning(p)
    ensures Inv(Move(w, c, p))
  {
    var w' := Move(w, c, p);
    assert forall k :: 0 <= k < |w.calls| ==> CallSound(w, w.calls[k]) && CallSound(w', w'.calls[k]);
    assert forall d :: d in w.callers && d != c ==> w'.callers[d] == w.callers[d];
  }

  lemma ClaimKeepsInv(w: World, c: nat)
    requires Inv(w) && c in w.callers && w.callers[c].phase == Cleared && !HasKey(w.db, w.callers[c].key)
    ensures Inv(CallerStep(w, Claim(c)))
  {
    var w' := CallerStep(w, Claim(c));
    ClaimKeepsRows(w, c);
    assert forall k :: 0 <= k < |w.calls| ==> CallSound(w, w.calls[k]) && CallSound(w', w'.calls[k]);
    assert forall d :: d in w.callers && d != c ==> w'.callers[d] == w.callers[d];
  }

  lemma ClaimKeepsRows(w: World, c: nat)
    requires RowsSound(w) && c in w.callers && w.callers[c].phase == Cleared && !HasKey(w.db, w.callers[c].key)
    ensures RowsSound(CallerStep(w, Claim(c)))
  {
    var w' := CallerStep(w, Claim(c));
    assert forall d :: d in w.callers && d != c ==> w'.callers[d] == w.callers[d];
    forall d | d in w'.callers && Owning(w'.callers[d].phase)
      ensures OwnedRow(w'.db, w'.callers[d])
    {
      if d != c { assert OwnedRow(w.db, w.callers[d]); }
    }
  }

  lemma StartKeepsInv(w: World, c: nat)
    requires Inv(w) && c in w.callers && w.callers[c].phase.Claimed?
    ensures Inv(CallerStep(w, Start(c)))
  {
    var w' := CallerStep(w, Start(c));
    StartKeepsRows(w, c);
    forall k | 0 <= k < |w.calls|
      ensures CallSound(w', w'.calls[k])
    {
      assert CallSound(w, w.calls[k]);
      var a :| 0 <= a < |w.db.attempts| && w.db.attempts[a].execution == w.calls[k].execution;
      assert w'.db.attempts[a] == w.db.attempts[a];
    }
    assert forall d :: d in w.callers && d != c ==> w'.callers[d] == w.callers[d];
  }

  lemma StartKeepsRows(w: World, c: nat)
    requires RowsSound(w) && c in w.callers && w.callers[c].phase.Claimed?
    ensures RowsSound(CallerStep(w, Start(c)))
  {
    var w' := CallerStep(w, Start(c));
    assert forall d :: d in w.callers && d != c ==> w'.callers[d] == w.callers[d];
  }

  /** The call about to be made names a stored execution with its attempt. */
  lemma NextCallIsSound(w: World, c: nat)
    requires RowsSound(w) && c in w.callers && w.callers[c].phase.Started?
    ensures CallSound(w, Call(c, w.callers[c].phase.e, w.callers[c].request, w.callers[c].key))
  {
    var e, a := w.callers[c].phase.e, w.callers[c].phase.a;
    assert OwnedRow(w.db, w.callers[c]);
    assert Logged(w.db, e) by { assert w.db.attempts[a].execution == e; }
  }

  lemma LogKeepsCalls(w: World, c: nat, call: Call, phase: Phase)
    requires CallsSound(w) && OwnersDiffer(w) && c in w.callers && BeforeInvocation(w.callers[c].phase)
    requires CallSound(w, call) && call.execution == w.callers[c].phase.e && !BeforeInvocation(phase)
    ensures CallsSound(Move(w.(calls := w.calls + [call]), c, phase))
  {
    var w' := Move(w.(calls := w.calls + [call]), c, phase);
    forall k | 0 <= k < |w'.calls|
      ensures CallSound(w', w'.calls[k])
    {
      if k < |w.calls| { assert CallSound(w, w.calls[k]); }
    }
    assert forall d :: d in w.callers && d != c ==> w'.callers[d] == w.callers[d];
  }

  lemma InvokeKeepsInv(w: World, c: nat, outcome: Outcome)
    requires Inv(w) && c in w.callers && w.callers[c].phase.Started?
    ensures Inv(CallerStep(w, Invoke(c, outcome)))
  {
    var me := w.callers[c];
    InvokeKeepsRows(w, c, outcome);
    NextCallIsSound(w, c);
    LogKeepsCalls(w, c, Call(c, me.phase.e, me.request, me.key), Invoked(me.phase.e, me.phase.a, outcome));
  }

  lemma InvokeKeepsRows(w: World, c: nat, outcome: Outcome)
    requires RowsSound(w) && c in w.callers && w.callers[c].phase.Started?
    ensures RowsSound(CallerStep(w, Invoke(c, outcome)))
  {
    var w' := CallerStep(w, Invoke(c, outcome));
    assert forall d :: d in w.callers && d != c ==> w'.callers[d] == w.callers[d];
  }

  lemma SetStatusKeepsInv(w: World, c: nat, s: ExecStatus, phase: Phase)
    requires Inv(w) && c in w.callers && (w.callers[c].phase.Invoked? || w.callers[c].phase.Recorded?)
    requires phase == Returned(w.callers[c].phase.e)
          || phase == Recorded(w.callers[c].phase.e, w.callers[c].phase.a)
    ensures Inv(Move(w.(db := SetStatus(w.db, w.callers[c].phase.e, w.callers[c].phase.a, s)), c, phase))
  {
    var e, a := w.callers[c].phase.e, w.callers[c].phase.a;
    assert OwnedRow(w.db, w.callers[c]);
    var w' := Move(w.(db := SetStatus(w.db, e, a, s)), c, phase);
    SetStatusKeepsNames(w.db, e, a, s);
    SetStatusKeepsRows(w, c, s, phase);
    forall k | 0 <= k < |w.calls|
      ensures CallSound(w', w'.calls[k])
    {
      assert CallSound(w, w.calls[k]);
      var b :| 0 <= b < |w.db.attempts| && w.db.attempts[b].execution == w.calls[k].execution;
      assert w'.db.attempts[b].execution == w.calls[k].execution;
    }
    assert forall d :: d in w.callers && d != c ==> w'.callers[d] == w.callers[d];
  }

  lemma SetStatusKeepsNames(db: Db, e: nat, a: nat, s: ExecStatus)
    ensures var db' := SetStatus(db, e, a, s);
      && db'.requests == db.requests && |db'.executions| == |db.executions| && |db'.attempts| == |db.attempts|
      && (forall i :: 0 <= i < |db.executions| ==>
            db'.executions[i].key == db.executions[i].key && db'.executions[i].request == db.executions[i].request)
      && (forall i :: 0 <= i < |db.executions| && i != e ==> db'.executions[i] == db.executions[i])
      && (forall i :: 0 <= i < |db.attempts| ==> db'.attempts[i].execution == db.attempts[i].execution)
  {
  }

  lemma SetStatusKeepsRows(w: World, c: nat, s: ExecStatus, phase: Phase)
    requires RowsSound(w) && c in w.callers && (w.callers[c].phase.Invoked? || w.callers[c].phase.Recorded?)
    requires phase == Returned(w.callers[c].phase.e)
          || phase == Recorded(w.callers[c].phase.e, w.callers[c].phase.a)
    ensures RowsSound(Move(w.(db := SetStatus(w.db, w.callers[c].phase.e, w.callers[c].phase.a, s)), c, phase))
  {
    var e, a := w.callers[c].phase.e, w.callers[c].phase.a;
    var w' := Move(w.(db := SetStatus(w.db, e, a, s)), c, phase);
    SetStatusKeepsNames(w.db, e, a, s);
    assert forall d :: d in w.callers && d != c ==> w'.callers[d] == w.callers[d];
    forall d | d in w'.callers && Owning(w'.callers[d].phase)
      ensures OwnedRow(w'.db, w'.callers[d])
    {
      assert Owning(w.callers[d].phase) && OwnedRow(w.db, w.callers[d]);
    }
  }

  lemma {:induction false} RunKeepsInv(w: World, events: seq<Event>)
    requires Inv(w)
    ensures Inv(Run(w, events))
    decreases |events|
  {
    if events != [] {
      StepKeepsInv(w, events[0]);
      RunKeepsInv(Step(w, events[0]), events[1..]);
    }
  }

  // ---------------------------------------------------------------- safety over every run

  const GENESIS := World(Db(map[], [], []), map[], [], Desk(map[], []))

  lemma {:induction false} RunCons(w: World, ev: Event, rest: seq<Event>)
    ensures Run(w, [ev] + rest) == Run(Step(w, ev), rest)
  {
    assert ([ev] + rest)[1..] == rest;
  }

  lemma {:induction false} RunAppend(w: World, events: seq<Event>, more: seq<Event>)
    ensures Run(w, events + more) == Run(Run(w, events), more)
    decreases |events|
  {
    if events == [] {
      assert [] + more == more;
    } else {
      assert (events + more)[0] == events[0] && (events + more)[1..] == events[1..] + more;
      RunAppend(Step(w, events[0]), events[1..], more);
    }
  }

  lemma {:induction false} RunSnoc(w: World, events: seq<Event>)
    requires events != []
    ensures Run(w, events) == Step(Run(w, events[..|events| - 1]), events[|events| - 1])
  {
    var n := |events| - 1;
    assert events == events[..n] + [events[n]];
    RunAppend(w, events[..n], [events[n]]);
    assert Run(Step(Run(w, events[..n]), events[n]), []) == Step(Run(w, events[..n]), events[n]);
  }

  /** Phases behind the check of the request's status. */
  predicate PastAuthorization(p: Phase) {
    Owning(p) || p.Authorized? || p.Cleared? || p.Contended?
  }

  /** The i-th event is caller `c` finding the request APPROVED. */
  ghost predicate AuthorizesAt(events: seq<Event>, i: nat, c: nat, request: nat) {
    i < |events| && events[i] == Authorize(c) && IsApproved(Run(GENESIS, events[..i]).db, request)
  }

  ghost predicate WasAuthorized(events: seq<Event>, c: nat, request: nat) {
    exists i: nat :: i < |events| && AuthorizesAt(events, i, c, request)
  }

  lemma AuthorizedEarlier(events: seq<Event>, c: nat, request: nat)
    requires events != [] && WasAuthorized(events[..|events| - 1], c, request)
    ensures WasAuthorized(events, c, request)
  {
    var n := |events| - 1;
    var i: nat :| i < n && AuthorizesAt(events[..n], i, c, request);
    assert events[..n][..i] == events[..i];
    assert AuthorizesAt(events, i, c, request);
  }

  /** Only an authorisation brings a caller past its check, and only a caller past it makes a call. */
  lemma StepAuthorizes(w: World, ev: Event, c: nat)
    requires c in Step(w, ev).callers && PastAuthorization(Step(w, ev).callers[c].phase)
    ensures c in w.callers && Step(w, ev).callers[c].request == w.callers[c].request
    ensures PastAuthorization(w.callers[c].phase) || (ev == Authorize(c) && IsApproved(w.db, w.callers[c].request))
  {
  }

  lemma CallerOfNewCall(w: World, ev: Event, k: nat)
    requires |w.calls| <= k < |Step(w, ev).calls|
    ensures var call := Step(w, ev).calls[k];
      call.caller in w.callers && w.callers[call.caller].request == call.request
      && PastAuthorization(w.callers[call.caller].phase)
  {
  }

  lemma CallsGrow(w: World, ev: Event)
    ensures w.calls <= Step(w, ev).calls
  {
  }

  /** Whoever is past the check, and whoever has made a call, once found the request APPROVED. */
  lemma {:induction false} AuthorizedFirst(events: seq<Event>)
    ensures var w := Run(GENESIS, events);
      && (forall c :: c in w.callers && PastAuthorization(w.callers[c].phase) ==>
            WasAuthorized(events, c, w.callers[c].request))
      && (forall k :: 0 <= k < |w.calls| ==> WasAuthorized(events, w.calls[k].caller, w.calls[k].request))
  {
    if events != [] {
      var n := |events| - 1;
      var before, w := Run(GENESIS, events[..n]), Run(GENESIS, events);
      AuthorizedFirst(events[..n]);
      RunSnoc(GENESIS, events);
      CallsGrow(before, events[n]);
      forall c | c in w.callers && PastAuthorization(w.callers[c].phase)
        ensures WasAuthorized(events, c, w.callers[c].request)
      {
        StepAuthorizes(before, events[n], c);
        if PastAuthorization(before.callers[c].phase) {
          AuthorizedEarlier(events, c, w.callers[c].request);
        } else {
          assert AuthorizesAt(events, n, c, w.callers[c].request);
        }
      }
      forall k | 0 <= k < |w.calls|
        ensures WasAuthorized(events, w.calls[k].caller, w.calls[k].request)
      {
        if k >= |before.calls| { CallerOfNewCall(before, events[n], k); } else { assert w.calls[k] == before.calls[k]; }
        AuthorizedEarlier(events, w.calls[k].caller, w.calls[k].request);
      }
    }
  }

  /**
   In every reachable world no key and no execution was handed to the adapter twice, and each
   call's own caller had found its request APPROVED.
   */
  lemma {:induction false} AdapterAtMostOncePerKey(events: seq<Event>)
    ensures var w := Run(GENESIS, events);
      && (forall j, k :: 0 <= j < k < |w.calls| ==> w.calls[j].key != w.calls[k].key)
      && (forall a, b :: 0 <= a < b < |w.db.attempts| ==> w.db.attempts[a].execution != w.db.attempts[b].execution)
      && (forall k :: 0 <= k < |w.calls| ==> Logged(w.db, w.calls[k].execution))
      && (forall k :: 0 <= k < |w.calls| ==> WasAuthorized(events, w.calls[k].caller, w.calls[k].request))
  {
    var w := Run(GENESIS, events);
    RunKeepsInv(GENESIS, events);
    AuthorizedFirst(events);
    forall j, k | 0 <= j < k < |w.calls|
      ensures w.calls[j].key != w.calls[k].key
    {
      assert CallSound(w, w.calls[j]) && CallSound(w, w.calls[k]);
    }
    forall k | 0 <= k < |w.calls|
      ensures Logged(w.db, w.calls[k].execution)
    {
      assert CallSound(w, w.calls[k]);
    }
  }

  /** The callers that own an execution under `key` and have not called the adapter yet. */
  ghost predicate OwnsKey(w: World, key: string, c: nat) {
    c in w.callers && w.callers[c].key == key && BeforeInvocation(w.callers[c].phase)
  }

  /**
   Once a key is stored, only the caller that stored it can still invoke the adapter under
   that key: the losers of the insert race and all later callers never do.
   */
  lemma {:induction false} OnlyTheOwnerInvokes(w: World, events: seq<Event>, key: string, owner: nat)
    requires Inv(w) && HasKey(w.db, key)
    requires forall c :: OwnsKey(w, key, c) ==> c == owner
    ensures var w' := Run(w, events);
      && w.calls <= w'.calls
      && forall k :: |w.calls| <= k < |w'.calls| && w'.calls[k].key == key ==> w'.calls[k].caller == owner
    decreases |events|
  {
    if events != [] {
      var next := Step(w, events[0]);
      StepKeepsInv(w, events[0]);
      KeyStep(w, events[0], key, owner);
      OnlyTheOwnerInvokes(next, events[1..], key, owner);
    }
  }

  lemma KeyStep(w: World, ev: Event, key: string, owner: nat)
    requires Inv(w) && HasKey(w.db, key)
    requires forall c :: OwnsKey(w, key, c) ==> c == owner
    ensures var w' := Step(w, ev);
      && HasKey(w'.db, key)
      && (forall c :: OwnsKey(w', key, c) ==> c == owner)
      && w.calls <= w'.calls
      && (forall k :: |w.calls| <= k < |w'.calls| && w'.calls[k].key == key ==> w'.calls[k].caller == owner)
  {
    var w' := Step(w, ev);
    KeyStays(w, ev, key);
    forall c | OwnsKey(w', key, c)
      ensures c == owner
    {
      NoNewOwner(w, ev, key, c);
    }
    if w'.calls != w.calls {
      var me := w.callers[ev.c];
      assert ev.Invoke? && me.phase.Started? && w'.calls == w.calls + [Call(ev.c, me.phase.e, me.request, me.key)];
      assert me.key == key ==> OwnsKey(w, key, ev.c);
    }
  }

  lemma KeyStays(w: World, ev: Event, key: string)
    requires HasKey(w.db, key)
    ensures HasKey(Step(w, ev).db, key)
  {
    var e :| 0 <= e < |w.db.executions| && w.db.executions[e].key == key;
    assert e < |Step(w, ev).db.executions| && Step(w, ev).db.executions[e].key == key;
  }

  lemma NoNewOwner(w: World, ev: Event, key: string, c: nat)
    requires HasKey(w.db, key) && OwnsKey(Step(w, ev), key, c)
    ensures OwnsKey(w, key, c)
  {
  }

  /** At most one caller owns a stored key, so the owner in the lemma above exists. */
  lemma OneOwnerPerKey(w: World, key: string, c: nat, d: nat)
    requires Inv(w) && OwnsKey(w, key, c) && OwnsKey(w, key, d)
    ensures c == d
  {
    assert OwnedRow(w.db, w.callers[c]) && OwnedRow(w.db, w.callers[d]);
  }

  // ---------------------------------------------------------------- a request that is shut

  predicate MayInvoke(p: Phase) {
    p.Cleared? || BeforeInvocation(p)
  }

  /**
   Execution `e` shuts its request: it succeeded, its fate is unknown, or it is RUNNING and
   the caller that ran it has stopped.
   */
  ghost predicate Shut(w: World, request: nat, e: nat) {
    && e < |w.db.executions|
    && w.db.executions[e].request == request
    && Blocking(w.db.executions[e].status)
    && (w.db.executions[e].status == Running ==>
          forall c :: c in w.callers && (w.callers[c].phase.Started? || w.callers[c].phase.Invoked?)
            ==> w.callers[c].phase.e != e)
  }

  ghost predicate PastTheGuard(w: World, request: nat, c: nat) {
    c in w.callers && w.callers[c].request == request && MayInvoke(w.callers[c].phase)
  }

  /**
   A shut request stays shut in every later world, and no call is ever made for it again
   except by a caller that was already past the guard. A crash after the RUNNING commit is
   one way to shut a request for good.
   */
  lemma {:induction false} ShutStaysShut(w: World, events: seq<Event>, request: nat, e: nat, insiders: set<nat>)
    requires Inv(w) && Shut(w, request, e)
    requires forall c :: PastTheGuard(w, request, c) ==> c in insiders
    ensures var w' := Run(w, events);
      && Shut(w', request, e)
      && w.calls <= w'.calls
      && forall k :: |w.calls| <= k < |w'.calls| && w'.calls[k].request == request ==> w'.calls[k].caller in insiders
    decreases |events|
  {
    if events != [] {
      StepKeepsInv(w, events[0]);
      ShutStep(w, events[0], request, e, insiders);
      ShutStaysShut(Step(w, events[0]), events[1..], request, e, insiders);
    }
  }

  lemma ShutStep(w: World, ev: Event, request: nat, e: nat, insiders: set<nat>)
    requires Inv(w) && Shut(w, request, e)
    requires forall c :: PastTheGuard(w, request, c) ==> c in insiders
    ensures var w' := Step(w, ev);
      && Shut(w', request, e)
      && (forall c :: PastTheGuard(w', request, c) ==> c in insiders)
      && w.calls <= w'.calls
      && (forall k :: |w.calls| <= k < |w'.calls| && w'.calls[k].request == request ==> w'.calls[k].caller in insiders)
  {
    var w' := Step(w, ev);
    ShutExecution(w, ev, request, e);
    forall c | PastTheGuard(w', request, c)
      ensures c in insiders
    {
      NobodyPasses(w, ev, request, e, c);
    }
  }

  /** The guard meets execution `e`: under the caller's key it is replayed, under another it blocks. */
  lemma NobodyPasses(w: World, ev: Event, request: nat, e: nat, c: nat)
    requires Shut(w, request, e) && PastTheGuard(Step(w, ev), request, c)
    ensures PastTheGuard(w, request, c)
  {
    if c in w.callers {
      var key := w.callers[c].key;
      assert w.db.executions[e].key == key ==> Replays(w.db, request, key);
      assert w.db.executions[e].key != key ==> Blocked(w.db, request, key);
    }
  }

  lemma ShutExecution(w: World, ev: Event, request: nat, e: nat)
    requires Inv(w) && Shut(w, request, e)
    ensures Shut(Step(w, ev), request, e)
  {
    if !ev.Arrive? && !ev.Decide? && ev.c in w.callers && Owning(w.callers[ev.c].phase) {
      assert OwnedRow(w.db, w.callers[ev.c]);
      ShutUnderOwner(w, ev, request, e);
    } else {
      ShutUnderOthers(w, ev, request, e);
    }
  }

  lemma ShutUnderOthers(w: World, ev: Event, request: nat, e: nat)
    requires Shut(w, request, e)
    requires !(!ev.Arrive? && !ev.Decide? && ev.c in w.callers && Owning(w.callers[ev.c].phase))
    ensures Shut(Step(w, ev), request, e)
  {
    var w' := Step(w, ev);
    assert w'.db.executions[e] == w.db.executions[e];
    forall c | c in w'.callers && (w'.callers[c].phase.Started? || w'.callers[c].phase.Invoked?)
      ensures c in w.callers && w.callers[c] == w'.callers[c]
    {
    }
  }

  lemma ShutUnderOwner(w: World, ev: Event, request: nat, e: nat)
    requires Shut(w, request, e)
    requires !ev.Arrive? && !ev.Decide? && ev.c in w.callers && Owning(w.callers[ev.c].phase) &&
        OwnedRow(w.db, w.callers[ev.c])
    ensures Shut(Step(w, ev), request, e)
  {
    var w' := Step(w, ev);
    assert forall c :: c in w.callers && c != ev.c ==> w'.callers[c] == w.callers[c];
  }

  // ---------------------------------------------------------------- one call with nothing between its steps

  /** The commit after which the process dies, if it does. */
  datatype StopPoint = BeforeClaim | AfterClaim | AfterStart | AfterCall | Never

  /**
   How one call meets the outside: where it dies, what the adapter does, which late step raises,
   and whether the handler of that exception gets to store UNKNOWN.
   */
  datatype Script = Script(stop: StopPoint, outcome: Outcome, recordFails: bool, readFails: bool, recovers: bool)

  predicate Claims(db: Db, request: nat, key: string, s: Script) {
    && IsApproved(db, request) && !Replays(db, request, key) && !Blocked(db, request, key)
    && !s.stop.BeforeClaim? && !HasKey(db, key)
  }

  predicate Calls(db: Db, request: nat, key: string, s: Script) {
    Claims(db, request, key, s) && (s.stop.AfterCall? || s.stop.Never?)
  }

  /** The adapter's answer was committed. */
  predicate Stores(s: Script) {
    s.outcome.Answers? && !s.recordFails
  }

  predicate Faults(s: Script) {
    !Stores(s) || s.readFails
  }

  function FinalStatus(s: Script): ExecStatus {
    if !s.stop.Never? then Running
    else if Faults(s) && s.recovers then Unknown
    else if Stores(s) then s.outcome.status
    else Running
  }

  /** The database after one undisturbed call. */
  function SerialDb(db: Db, request: nat, key: string, s: Script): Db {
    if !Claims(db, request, key, s) then db
    else if s.stop.AfterClaim? then db.(executions := db.executions + [Execution(request, key, Pending)])
    else db.(executions := db.executions + [Execution(request, key, FinalStatus(s))],
             attempts := db.attempts + [Attempt(|db.executions|, 1, FinalStatus(s))])
  }

  /** The protocol steps that one undisturbed call takes. */
  function CallEvents(c: nat, request: nat, key: Option<string>, s: Script, preferReplay: bool): seq<Event> {
    [Arrive(c, request, key), Authorize(c), Guard(c, preferReplay)] + AfterGuard(c, s)
  }

  function AfterGuard(c: nat, s: Script): seq<Event> {
    if s.stop.BeforeClaim? then [Stop(c)] else [Claim(c), Resolve(c)] + AfterInsert(c, s)
  }

  function AfterInsert(c: nat, s: Script): seq<Event> {
    if s.stop.AfterClaim? then [Stop(c)] else [Start(c)] + AfterRunning(c, s)
  }

  function AfterRunning(c: nat, s: Script): seq<Event> {
    if s.stop.AfterStart? then [Stop(c)] else [Invoke(c, s.outcome)] + AfterAdapter(c, s)
  }

  function AfterAdapter(c: nat, s: Script): seq<Event> {
    if s.stop.AfterCall? then [Stop(c)]
    else if !Stores(s) then [Fault(c, s.recovers)]
    else [Record(c), if s.readFails then Fault(c, s.recovers) else Finish(c)]
  }

  function Solo(db: Db, c: nat, request: nat, key: string, phase: Phase, calls: seq<Call>, desk: Desk): World {
    World(db, map[c := Caller(request, key, phase)], calls, desk)
  }

  predicate ByCaller(c: nat, events: seq<Event>) {
    forall k :: 0 <= k < |events| ==> !events[k].Arrive? && !events[k].Decide? && events[k].c == c
  }

  lemma {:induction false} OverStaysOver(w: World, c: nat, events: seq<Event>)
    requires c in w.callers && Over(w.callers[c].phase) && ByCaller(c, events)
    ensures Run(w, events) == w
    decreases |events|
  {
    if events != [] {
      assert Step(w, events[0]) == w;
      OverStaysOver(w, c, events[1..]);
    }
  }

  /**
   An undisturbed call is one of the protocol's runs: the closed form below is what its
   steps leave in the tables, and the adapter is invoked exactly when the closed form says so.
   */
  lemma {:induction false} SerialCallIsARun(db: Db, calls: seq<Call>, desk: Desk, c: nat, request: nat,
          key: Option<string>,
          s: Script, preferReplay: bool)
    ensures SerialOutcome(Run(World(db, map[], calls, desk), CallEvents(c, request, key, s, preferReplay)),
                          db, calls, c, request, KeyFor(request, key), s)
  {
    var k := KeyFor(request, key);
    var w0 := World(db, map[], calls, desk);
    var rest := [Authorize(c), Guard(c, preferReplay)] + AfterGuard(c, s);
    RunCons(w0, Arrive(c, request, key), rest);
    assert CallEvents(c, request, key, s, preferReplay) == [Arrive(c, request, key)] + rest;
    assert Step(w0, Arrive(c, request, key)) == Solo(db, c, request, k, Arrived, calls, desk);
    ArrivedRun(db, calls, desk, c, request, k, s, preferReplay);
  }

  /** What an undisturbed call leaves behind. */
  predicate SerialOutcome(w: World, db: Db, calls: seq<Call>, c: nat, request: nat, key: string, s: Script) {
    && w.db == SerialDb(db, request, key, s)
    && w.calls == calls + (if Calls(db, request, key, s) then [Call(c, |db.executions|, request, key)] else [])
    && c in w.callers && Over(w.callers[c].phase) && w.callers.Keys == {c}
  }

  lemma ArrivedRun(db: Db, calls: seq<Call>, desk: Desk, c: nat, request: nat, key: string, s: Script,
          preferReplay: bool)
    ensures SerialOutcome(Run(Solo(db, c, request, key, Arrived, calls, desk),
                              [Authorize(c), Guard(c, preferReplay)] + AfterGuard(c, s)), db, calls, c, request, key, s)
  {
    var tail := AfterGuard(c, s);
    var guard := Guard(c, preferReplay);
    var w1 := Solo(db, c, request, key, Arrived, calls, desk);
    RunCons(w1, Authorize(c), [guard] + tail);
    assert [Authorize(c), guard] + tail == [Authorize(c)] + ([guard] + tail);
    if !IsApproved(db, request) {
      assert ByCaller(c, [guard] + tail) by { TailByCaller(c, s); }
      OverStaysOver(Step(w1, Authorize(c)), c, [guard] + tail);
    } else {
      assert Step(w1, Authorize(c)) == Solo(db, c, request, key, Authorized, calls, desk);
      AuthorizedRun(db, calls, desk, c, request, key, s, preferReplay);
    }
  }

  lemma TailByCaller(c: nat, s: Script)
    ensures ByCaller(c, AfterGuard(c, s)) && ByCaller(c, AfterInsert(c, s))
  {
    assert ByCaller(c, AfterAdapter(c, s)) && ByCaller(c, AfterRunning(c, s));
  }

  lemma AuthorizedRun(db: Db, calls: seq<Call>, desk: Desk, c: nat, request: nat, key: string, s: Script,
          preferReplay: bool)
    requires IsApproved(db, request)
    ensures SerialOutcome(Run(Solo(db, c, request, key, Authorized, calls, desk),
        [Guard(c, preferReplay)] + AfterGuard(c, s)),
                          db, calls, c, request, key, s)
  {
    var w := Solo(db, c, request, key, Authorized, calls, desk);
    RunCons(w, Guard(c, preferReplay), AfterGuard(c, s));
    var next := Step(w, Guard(c, preferReplay));
    if Replays(db, request, key) || Blocked(db, request, key) {
      TailByCaller(c, s);
      OverStaysOver(next, c, AfterGuard(c, s));
    } else {
      assert next == Solo(db, c, request, key, Cleared, calls, desk);
      ClearedRun(db, calls, desk, c, request, key, s);
    }
  }

  lemma ClearedRun(db: Db, calls: seq<Call>, desk: Desk, c: nat, request: nat, key: string, s: Script)
    requires IsApproved(db, request) && !Replays(db, request, key) && !Blocked(db, request, key)
    ensures SerialOutcome(Run(Solo(db, c, request, key, Cleared, calls, desk), AfterGuard(c, s)),
                          db, calls, c, request, key, s)
  {
    var w := Solo(db, c, request, key, Cleared, calls, desk);
    if s.stop.BeforeClaim? {
      RunCons(w, Stop(c), []);
      assert [Stop(c)] + [] == [Stop(c)];
    } else {
      var tail := AfterInsert(c, s);
      RunCons(w, Claim(c), [Resolve(c)] + tail);
      assert AfterGuard(c, s) == [Claim(c)] + ([Resolve(c)] + tail);
      RunCons(Step(w, Claim(c)), Resolve(c), tail);
      if HasKey(db, key) {
        ContendedRun(db, calls, desk, c, request, key, s);
      } else {
        ClaimsRow(db, calls, desk, c, request, key);
        ClaimedRun(db, db.(executions := db.executions + [Execution(request, key, Pending)]),
                   calls, desk, c, request, key, s);
      }
    }
  }

  lemma ContendedRun(db: Db, calls: seq<Call>, desk: Desk, c: nat, request: nat, key: string, s: Script)
    requires HasKey(db, key)
    ensures var w := Solo(db, c, request, key, Cleared, calls, desk);
      var next := Step(Step(w, Claim(c)), Resolve(c));
      Run(next, AfterInsert(c, s)) == next && next == Solo(db, c, request, key, Returned(ByKey(db, key)), calls, desk)
  {
    var w := Solo(db, c, request, key, Cleared, calls, desk);
    var w1 := Step(w, Claim(c));
    assert w1 == Solo(db, c, request, key, Contended, calls, desk);
    assert Step(w1, Resolve(c)) == Solo(db, c, request, key, Returned(ByKey(db, key)), calls, desk);
    TailByCaller(c, s);
    OverStaysOver(Step(w1, Resolve(c)), c, AfterInsert(c, s));
  }

  lemma ClaimsRow(db: Db, calls: seq<Call>, desk: Desk, c: nat, request: nat, key: string)
    requires !HasKey(db, key)
    ensures var w := Solo(db, c, request, key, Cleared, calls, desk);
      var db' := db.(executions := db.executions + [Execution(request, key, Pending)]);
      Step(Step(w, Claim(c)), Resolve(c)) == Solo(db', c, request, key, Claimed(|db.executions|), calls, desk)
  {
    var w := Solo(db, c, request, key, Cleared, calls, desk);
    var db' := db.(executions := db.executions + [Execution(request, key, Pending)]);
    assert Step(w, Claim(c)) == Solo(db', c, request, key, Claimed(|db.executions|), calls, desk);
  }

  lemma ClaimedRun(db: Db, db': Db, calls: seq<Call>, desk: Desk, c: nat, request: nat, key: string, s: Script)
    requires Claims(db, request, key, s)
    requires db' == db.(executions := db.executions + [Execution(request, key, Pending)])
    ensures SerialOutcome(Run(Solo(db', c, request, key, Claimed(|db.executions|), calls, desk), AfterInsert(c, s)),
                          db, calls, c, request, key, s)
  {
    var e, a := |db.executions|, |db.attempts|;
    var w := Solo(db', c, request, key, Claimed(e), calls, desk);
    if s.stop.AfterClaim? {
      RunCons(w, Stop(c), []);
      assert [Stop(c)] + [] == [Stop(c)];
    } else {
      RunCons(w, Start(c), AfterRunning(c, s));
      var db2 := Db(db.requests, db.executions + [Execution(request, key, Running)],
          db.attempts + [Attempt(e, 1, Running)]);
      assert db'.executions[e := db'.executions[e].(status := Running)] == db2.executions;
      assert Step(w, Start(c)) == Solo(db2, c, request, key, Started(e, a), calls, desk);
      StartedRun(db, db2, calls, desk, c, request, key, s);
    }
  }

  lemma StartedRun(db: Db, db2: Db, calls: seq<Call>, desk: Desk, c: nat, request: nat, key: string, s: Script)
    requires Claims(db, request, key, s) && !s.stop.AfterClaim?
    requires db2 == Db(db.requests, db.executions + [Execution(request, key, Running)],
                       db.attempts + [Attempt(|db.executions|, 1, Running)])
    ensures SerialOutcome(Run(Solo(db2, c, request, key, Started(|db.executions|, |db.attempts|), calls, desk),
        AfterRunning(c, s)),
                          db, calls, c, request, key, s)
  {
    var e, a := |db.executions|, |db.attempts|;
    var w := Solo(db2, c, request, key, Started(e, a), calls, desk);
    if s.stop.AfterStart? {
      RunCons(w, Stop(c), []);
      assert [Stop(c)] + [] == [Stop(c)];
    } else {
      RunCons(w, Invoke(c, s.outcome), AfterAdapter(c, s));
      var calls' := calls + [Call(c, e, request, key)];
      var w1 := Solo(db2, c, request, key, Invoked(e, a, s.outcome), calls', desk);
      InvokesOnce(db2, calls, desk, c, request, key, e, a, s.outcome);
      InvokedRun(db, db2, calls', desk, c, request, key, s);
    }
  }

  lemma InvokesOnce(db: Db, calls: seq<Call>, desk: Desk, c: nat, request: nat, key: string, e: nat, a: nat,
          outcome: Outcome)
    ensures Step(Solo(db, c, request, key, Started(e, a), calls, desk), Invoke(c, outcome))
         == Solo(db, c, request, key, Invoked(e, a, outcome), calls + [Call(c, e, request, key)], desk)
  {
    assert Step(Solo(db, c, request, key, Started(e, a), calls, desk), Invoke(c, outcome)).callers
        == map[c := Caller(request, key, Invoked(e, a, outcome))];
  }

  lemma InvokedRun(db: Db, db2: Db, calls': seq<Call>, desk: Desk, c: nat, request: nat, key: string, s: Script)
    requires Claims(db, request, key, s) && (s.stop.AfterCall? || s.stop.Never?)
    requires db2 == Db(db.requests, db.executions + [Execution(request, key, Running)],
                       db.attempts + [Attempt(|db.executions|, 1, Running)])
    ensures var w :=
        Run(Solo(db2, c, request, key, Invoked(|db.executions|, |db.attempts|, s.outcome), calls', desk),
            AfterAdapter(c, s));
      && w.db == SerialDb(db, request, key, s) && w.calls == calls'
      && c in w.callers && Over(w.callers[c].phase) && w.callers.Keys == {c}
  {
    var e, a := |db.executions|, |db.attempts|;
    var w1 := Solo(db2, c, request, key, Invoked(e, a, s.outcome), calls', desk);
    FinalStep(db, db2, e, a, FinalStatus(s));
    if s.stop.AfterCall? {
      RunCons(w1, Stop(c), []);
      assert [Stop(c)] + [] == [Stop(c)];
    } else if !Stores(s) {
      RunCons(w1, Fault(c, s.recovers), []);
      assert [Fault(c, s.recovers)] + [] == [Fault(c, s.recovers)];
      assert db2.executions[e].(status := Running) == db2.executions[e];
    } else {
      var last := if s.readFails then Fault(c, s.recovers) else Finish(c);
      RunCons(w1, Record(c), [last]);
      assert [Record(c)] + [last] == [Record(c), last];
      FinalStep(db, db2, e, a, s.outcome.status);
      RunCons(Step(w1, Record(c)), last, []);
      assert [last] + [] == [last];
    }
  }

  lemma FinalStep(db: Db, db2: Db, e: nat, a: nat, s: ExecStatus)
    requires e == |db.executions| && a == |db.attempts| && |db2.executions| == e + 1 && |db2.attempts| == a + 1
    requires db2.executions[..e] == db.executions && db2.attempts[..a] == db.attempts
    ensures SetStatus(db2, e, a, s).executions == db.executions + [db2.executions[e].(status := s)]
    ensures SetStatus(db2, e, a, s).attempts == db.attempts + [db2.attempts[a].(status := s)]
    ensures forall t :: SetStatus(SetStatus(db2, e, a, t), e, a, s) == SetStatus(db2, e, a, s)
  {
  }

  /**
   An undisturbed call that survives to its adapter call makes one exactly when the request is
   approved, no execution of its own blocks it or carries its key, and no other request's
   execution carries the key either. So a call that passes the guard is swallowed, without a
   trace, if and only if another request has used its key.
   */
  lemma {:induction false} ReachesTheAdapterIff(db: Db, calls: seq<Call>, desk: Desk, c: nat, request: nat,
          key: Option<string>,
          s: Script, preferReplay: bool)
    requires s.stop.AfterCall? || s.stop.Never?
    ensures var w := Run(World(db, map[], calls, desk), CallEvents(c, request, key, s, preferReplay));
      var k := KeyFor(request, key);
      && (|w.calls| == |calls| + 1
          <==> && IsApproved(db, request)
               && forall e :: 0 <= e < |db.executions| ==>
                    && db.executions[e].key != k
                    && (db.executions[e].request == request ==> !Blocking(db.executions[e].status)))
      && (IsApproved(db, request) && !Replays(db, request, k) && !Blocked(db, request, k) ==>
            (w.db == db && w.calls == calls
             <==> exists e ::
                 0 <= e < |db.executions| && db.executions[e].key == k && db.executions[e].request != request))
  {
    SerialCallIsARun(db, calls, desk, c, request, key, s, preferReplay);
    var k := KeyFor(request, key);
    if HasKey(db, k) {
      var e :| 0 <= e < |db.executions| && db.executions[e].key == k;
      assert !Replays(db, request, k) ==> db.executions[e].request != request;
    }
  }

  lemma {:induction false} DigitsDiffer(n: nat, m: nat)
    requires Digits(n) == Digits(m)
    ensures n == m
    decreases n
  {
    LastDigit(n);
    LastDigit(m);
    if n >= 10 && m >= 10 {
      assert Digits(n)[..|Digits(n)| - 1] == Digits(n / 10) && Digits(m)[..|Digits(m)| - 1] == Digits(m / 10);
      DigitsDiffer(n / 10, m / 10);
    }
  }

  lemma {:induction false} LastDigit(n: nat)
    ensures |Digits(n)| > 0 && Digits(n)[|Digits(n)| - 1] == Digit(n % 10)
    ensures n >= 10 <==> |Digits(n)| > 1
  {
  }

  /** Callers that leave the key to the service never collide across requests. */
  lemma DefaultKeysDiffer(request: nat, other: nat)
    requires KeyFor(request, None) == KeyFor(other, None)
    ensures request == other
  {
    assert Digits(request) == DefaultKey(request)[5..] && Digits(other) == DefaultKey(other)[5..];
    DigitsDiffer(request, other);
  }

  // ---------------------------------------------------------------- the service

  datatype CallResult = Gives(e: nat) | ExecutionError | Died | Raised

  /**
   The service object over its tables. Each assignment to the fields stands for one commit;
   `script` says where the process dies, what the adapter does, which late step raises and
   whether the handler recovers.
   */
  class ActionExecutionService {
    var requests: map<nat, RequestStatus>
    var executions: seq<Execution>
    var attempts: seq<Attempt>
    var calls: seq<Call>

    ghost function Snapshot(): Db
      reads this
    {
      Db(requests, executions, attempts)
    }

    constructor (requests: map<nat, RequestStatus>)
      ensures Snapshot() == Db(requests, [], []) && calls == []
    {
      this.requests, executions, attempts, calls := requests, [], [], [];
    }

    method ExecuteActionRequest(request: nat, idempotencyKey: Option<string>, script: Script, caller: nat)
      returns (result: CallResult)
      modifies this
      ensures var before := old(Snapshot());
        var key := KeyFor(request, idempotencyKey);
        && Snapshot() == SerialDb(before, request, key, script)
        && calls == old(calls) + (if Calls(before, request, key, script)
                                  then [Call(caller, |before.executions|, request, key)] else [])
        && (result.Gives? ==> result.e < |executions| && executions[result.e].key == key)
        && (Claims(before, request, key, script) ==>
              result == if !script.stop.Never? then Died
                        else if Faults(script) && !script.recovers then Raised
                        else Gives(|before.executions|))
        && (!IsApproved(before, request) ==> result == ExecutionError)
        && (result.ExecutionError? ==> !IsApproved(before, request) || Blocked(before, request, key))
        && (Blocked(before, request, key) && !Replays(before, request, key) ==> result == ExecutionError)
    {
      if request !in requests || requests[request] != Approved {
        return ExecutionError;
      }
      var key := KeyFor(request, idempotencyKey);
      for i := 0 to |executions|
        invariant forall e :: 0 <= e < i ==>
          executions[e].request == request ==> executions[e].key != key && !Blocking(executions[e].status)
      {
        if executions[i].request == request {
          if executions[i].key == key { return Gives(i); }
          if Blocking(executions[i].status) { return ExecutionError; }
        }
      }
      if script.stop.BeforeClaim? { return Died; }

      // The insert: the unique key either refuses it or makes this call the owner.
      for i := 0 to |executions|
        invariant forall e :: 0 <= e < i ==> executions[e].key != key
      {
        if executions[i].key == key { return Gives(i); }
      }
      var e, a := |executions|, |attempts|;
      executions := executions + [Execution(request, key, Pending)];
      if script.stop.AfterClaim? { return Died; }

      executions := executions[e := executions[e].(status := Running)];
      attempts := attempts + [Attempt(e, 1, Running)];
      if script.stop.AfterStart? { return Died; }

      calls := calls + [Call(caller, e, request, key)];
      result := Conclude(e, a, script);
    }

    /** What follows the adapter call: the answer is stored, or the handler does what it can. */
    method Conclude(e: nat, a: nat, script: Script) returns (result: CallResult)
      requires e < |executions| && a < |attempts| && attempts[a].execution == e
      requires executions[e].status == attempts[a].status == Running
      requires script.stop.AfterCall? || script.stop.Never?
      modifies `executions, `attempts
      ensures executions == old(executions)[e := old(executions)[e].(status := FinalStatus(script))]
      ensures attempts == old(attempts)[a := old(attempts)[a].(status := FinalStatus(script))]
      ensures result == if !script.stop.Never? then Died
                        else if Faults(script) && !script.recovers then Raised else Gives(e)
    {
      if script.stop.AfterCall? { return Died; }
      if script.outcome.Answers? && !script.recordFails {
        Record(e, a, script.outcome.status);
        if !script.readFails { return Gives(e); }
      }
      // The handler: the rollback may leave it nothing to work with.
      if !script.recovers { return Raised; }
      Record(e, a, Unknown);
      return Gives(e);
    }

    /** Commits one status to an execution and its attempt. */
    method Record(e: nat, a: nat, status: ExecStatus)
      requires e < |executions| && a < |attempts| && attempts[a].execution == e
      modifies `executions, `attempts
      ensures executions == old(executions)[e := old(executions)[e].(status := status)]
      ensures attempts == old(attempts)[a := old(attempts)[a].(status := status)]
    {
      executions := executions[e := executions[e].(status := status)];
      attempts := attempts[a := attempts[a].(status := status)];
    }
  }
}
