/**
 Closing a financial period: seven controls are evaluated again under a row lock, one query after
 the other, every attempt leaves its evaluation, and only a ready evaluation closes the period.

 Books are the rows the controls read. Statuses are plain text, as they are stored.
 */
module PeriodClose {
  import opened Wrappers

  import ActionExecution
  import Governance

  datatype Record = Record(created: int, status: string)

  datatype Discrepancy = Discrepancy(id: string, created: int)

  datatype Request = Request(id: nat, discrepancy: string, created: int, status: string)

  datatype Execution = Execution(request: nat, created: int, status: string)

  datatype Books = Books(payments: seq<Record>, discrepancies: seq<Discrepancy>, investigations: seq<Record>,
                         requests: seq<Request>, executions: seq<Execution>)

  datatype Code =
    | UnreconciledTransactions | UnresolvedExceptions | PendingInvestigations | FailedInvestigations
    | PendingActionRequests | RunningExecutions | UnknownExecutions

  datatype Control = Control(code: Code, blocked: bool, count: nat)

  datatype Period = Period(start: int, end: int, status: string, closedBy: Option<string>)

  /** A stored evaluation, with the books that each of its seven controls was read from. */
  datatype Evaluation = Evaluation(period: nat, evaluator: string, isReady: bool, blockingCount: nat,
                                   controls: seq<Control>, seen: seq<Books>)

  predicate Within(p: Period, at: int) {
    p.start <= at < p.end
  }

  // ---------------------------------------------------------------- what readiness means

  predicate HasSucceeded(b: Books, r: Request) {
    exists e :: e in b.executions && e.request == r.id && e.status == "SUCCEEDED"
  }

  predicate Resolved(b: Books, discrepancy: string) {
    exists r :: r in b.requests && r.discrepancy == discrepancy && HasSucceeded(b, r)
  }

  /** What each control asks for. */
  predicate Part(i: nat, b: Books, p: Period) {
    match i
    case 0 => forall x :: x in b.payments && Within(p, x.created) ==> x.status == "RECONCILED"
    case 1 => forall d :: d in b.discrepancies && Within(p, d.created) ==> Resolved(b, d.id)
    case 2 => forall x :: x in b.investigations && Within(p, x.created) ==> x.status != "PENDING"
    case 3 => forall x :: x in b.investigations && Within(p, x.created) ==> x.status != "FAILED"
    case 4 => forall r :: r in b.requests && Within(p, r.created) ==> r.status != "PENDING_APPROVAL"
    case 5 => forall e :: e in b.executions && Within(p, e.created) ==> e.status !in {"PENDING", "RUNNING"}
    case _ => forall e :: e in b.executions && Within(p, e.created) ==> e.status != "UNKNOWN"
  }

  const CONTROLS: nat := 7

  /** Nothing in the period is open, and every discrepancy of the period has a SUCCEEDED execution. */
  predicate Ready(b: Books, p: Period) {
    && (forall x :: x in b.payments && Within(p, x.created) ==> x.status == "RECONCILED")
    && (forall d :: d in b.discrepancies && Within(p, d.created) ==> Resolved(b, d.id))
    && (forall x :: x in b.investigations && Within(p, x.created) ==> x.status != "PENDING" && x.status != "FAILED")
    && (forall r :: r in b.requests && Within(p, r.created) ==> r.status != "PENDING_APPROVAL")
    && (forall e :: e in b.executions && Within(p, e.created) ==> e.status !in {"PENDING", "RUNNING", "UNKNOWN"})
  }

  /** Each control passes on the books it was read from. */
  predicate ReadyInParts(seen: seq<Books>, p: Period) {
    |seen| == CONTROLS && forall i :: 0 <= i < CONTROLS ==> Part(i, seen[i], p)
  }

  /** Seven readings of the same books. */
  function Still(b: Books): seq<Books> {
    [b, b, b, b, b, b, b]
  }

  lemma PartsOfReady(b: Books, p: Period)
    ensures Ready(b, p) <==>
      Part(0, b, p) && Part(1, b, p) && Part(2, b, p) && Part(3, b, p) && Part(4, b, p) && Part(5, b, p)
      && Part(6, b, p)
  {
  }

  lemma StillIff(b: Books, p: Period)
    ensures ReadyInParts(Still(b), p) <==> Ready(b, p)
  {
    var s := Still(b);
    PartsOfReady(b, p);
    if ReadyInParts(s, p) {
      assert Part(0, s[0], p) && Part(1, s[1], p) && Part(2, s[2], p) && Part(3, s[3], p);
      assert Part(4, s[4], p) && Part(5, s[5], p) && Part(6, s[6], p);
    }
    if Ready(b, p) {
      forall i: nat | i < CONTROLS
        ensures Part(i, s[i], p)
      {
        assert s[i] == b && (i == 0 || i == 1 || i == 2 || i == 3 || i == 4 || i == 5 || i == 6);
      }
    }
  }

  // ---------------------------------------------------------------- the controls

  function Count<T>(s: seq<T>, counts: T -> bool): nat {
    if s == [] then 0 else Count(s[..|s| - 1], counts) + if counts(s[|s| - 1]) then 1 else 0
  }

  lemma {:induction false} CountZeroIff<T>(s: seq<T>, counts: T -> bool)
    ensures Count(s, counts) == 0 <==> forall x :: x in s ==> !counts(x)
  {
    if s != [] {
      CountZeroIff(s[..|s| - 1], counts);
      assert s == s[..|s| - 1] + [s[|s| - 1]];
    }
  }

  /** The rows each control counts. */
  function Unreconciled(p: Period): Record -> bool {
    (x: Record) => Within(p, x.created) && x.status != "RECONCILED"
  }

  function Unresolved(b: Books, p: Period): Discrepancy -> bool {
    (d: Discrepancy) => Within(p, d.created) && !Resolved(b, d.id)
  }

  function Investigations(p: Period, status: string): Record -> bool {
    (x: Record) => Within(p, x.created) && x.status == status
  }

  function Undecided(p: Period): Request -> bool {
    (r: Request) => Within(p, r.created) && r.status == "PENDING_APPROVAL"
  }

  function Executions(p: Period, statuses: set<string>): Execution -> bool {
    (e: Execution) => Within(p, e.created) && e.status in statuses
  }

  function ControlOf(code: Code, count: nat): Control {
    Control(code, count > 0, count)
  }

  function ControlAt(i: nat, b: Books, p: Period): Control {
    match i
    case 0 => ControlOf(UnreconciledTransactions, Count(b.payments, Unreconciled(p)))
    case 1 => ControlOf(UnresolvedExceptions, Count(b.discrepancies, Unresolved(b, p)))
    case 2 => ControlOf(PendingInvestigations, Count(b.investigations, Investigations(p, "PENDING")))
    case 3 => ControlOf(FailedInvestigations, Count(b.investigations, Investigations(p, "FAILED")))
    case 4 => ControlOf(PendingActionRequests, Count(b.requests, Undecided(p)))
    case 5 => ControlOf(RunningExecutions, Count(b.executions, Executions(p, {"PENDING", "RUNNING"})))
    case _ => ControlOf(UnknownExecutions, Count(b.executions, Executions(p, {"UNKNOWN"})))
  }

  function Controls(seen: seq<Books>, p: Period): seq<Control> {
    seq(|seen|, i requires 0 <= i < |seen| => ControlAt(i, seen[i], p))
  }

  lemma ControlsOfStill(b: Books, p: Period)
    ensures Controls(Still(b), p) ==
      [ControlAt(0, b, p), ControlAt(1, b, p), ControlAt(2, b, p), ControlAt(3, b, p), ControlAt(4, b, p),
       ControlAt(5, b, p), ControlAt(6, b, p)]
  {
  }

  predicate AllPass(controls: seq<Control>) {
    forall i :: 0 <= i < |controls| ==> !controls[i].blocked
  }

  function Blocking(controls: seq<Control>): nat {
    if controls == [] then 0
    else Blocking(controls[..|controls| - 1]) + if controls[|controls| - 1].blocked then 1 else 0
  }

  lemma {:induction false} NoneBlockingIff(controls: seq<Control>)
    ensures Blocking(controls) == 0 <==> AllPass(controls)
  {
    if controls != [] {
      NoneBlockingIff(controls[..|controls| - 1]);
      assert AllPass(controls) <==> AllPass(controls[..|controls| - 1]) && !controls[|controls| - 1].blocked;
    }
  }

  lemma PartIff(i: nat, b: Books, p: Period)
    ensures !ControlAt(i, b, p).blocked <==> Part(i, b, p)
  {
    match i {
      case 0 => CountZeroIff(b.payments, Unreconciled(p));
      case 1 => CountZeroIff(b.discrepancies, Unresolved(b, p));
      case 2 => CountZeroIff(b.investigations, Investigations(p, "PENDING"));
      case 3 => CountZeroIff(b.investigations, Investigations(p, "FAILED"));
      case 4 => CountZeroIff(b.requests, Undecided(p));
      case 5 => CountZeroIff(b.executions, Executions(p, {"PENDING", "RUNNING"}));
      case _ => CountZeroIff(b.executions, Executions(p, {"UNKNOWN"}));
    }
  }

  /** The controls pass exactly when each finds its part of the period ready in the books it reads. */
  lemma PartsIff(seen: seq<Books>, p: Period)
    requires |seen| == CONTROLS
    ensures AllPass(Controls(seen, p)) <==> ReadyInParts(seen, p)
    ensures Blocking(Controls(seen, p)) == 0 <==> ReadyInParts(seen, p)
  {
    NoneBlockingIff(Controls(seen, p));
    forall i: nat | i < CONTROLS
      ensures !Controls(seen, p)[i].blocked <==> Part(i, seen[i], p)
    {
      PartIff(i, seen[i], p);
    }
    if ReadyInParts(seen, p) {
      forall i | 0 <= i < |Controls(seen, p)| ensures !Controls(seen, p)[i].blocked { assert Part(i, seen[i], p); }
    }
  }

  /** On books that stand still the controls pass exactly when the period is ready in the plain sense. */
  lemma ReadyIff(b: Books, p: Period)
    ensures AllPass(Controls(Still(b), p)) <==> Ready(b, p)
    ensures Blocking(Controls(Still(b), p)) == 0 <==> Ready(b, p)
  {
    PartsIff(Still(b), p);
    StillIff(b, p);
  }

  const PAYMENT_STATUSES :=
      {"PENDING", "AUTHORIZED", "CAPTURED", "FAILED", "CANCELLED", "REFUNDED", "PARTIALLY_REFUNDED"}

  /**
   The status the first control asks for is not one that a payment can be given: while all
   payments carry statuses of the vocabulary, a period with a payment in it never closes.
   */
  lemma PaymentsBlockTheClose(b: Books, p: Period)
    requires forall x :: x in b.payments ==> x.status in PAYMENT_STATUSES
    ensures Ready(b, p) ==> forall x :: x in b.payments ==> !Within(p, x.created)
  {
    assert |"RECONCILED"| == 10 && |"PARTIALLY_REFUNDED"| == 18 && |"AUTHORIZED"| == 10;
    assert "AUTHORIZED"[0] != "RECONCILED"[0];
    assert "RECONCILED" !in PAYMENT_STATUSES;
  }

  // ---------------------------------------------------------------- attempts, step by step

  datatype Phase =
    | Arrived                        // loaded the period row
    | Checking(seen: seq<Books>)     // reads one control after the other, a close attempt under the row lock
    | Closed(evaluation: nat)
    | Recorded
    | Blocked
    | Refused
    | Crashed

  /** An attempt to close, or an evaluation on its own. */
  datatype Caller = Caller(period: nat, actor: string, closes: bool, seenStatus: string, phase: Phase)

  /** One success: the period and the stored evaluation it rests on. */
  datatype Closing = Closing(period: nat, evaluation: nat)

  datatype World = World(books: Books, periods: map<nat, Period>, evaluations: seq<Evaluation>,
                         locks: map<nat, nat>, callers: map<nat, Caller>, closings: seq<Closing>)

  datatype Event =
    | Create(p: nat, start: int, end: int)
    | Change(books: Books)                              // anything else the system does
    | Arrive(c: nat, p: nat, actor: string, closes: bool)
    | Lock(c: nat)
    | Check(c: nat)                                     // the query of the next control
    | Commit(c: nat)
    | Crash(c: nat)

  function EvaluationOf(seen: seq<Books>, p: nat, period: Period, actor: string): Evaluation {
    var controls := Controls(seen, period);
    Evaluation(p, actor, Blocking(controls) == 0, Blocking(controls), controls, seen)
  }

  function Move(w: World, c: nat, phase: Phase): World
    requires c in w.callers
  {
    w.(callers := w.callers[c := w.callers[c].(phase := phase)])
  }

  function Without(locks: map<nat, nat>, p: nat): map<nat, nat> {
    map q | q in locks && q != p :: locks[q]
  }

  predicate Holding(me: Caller) {
    me.closes && me.phase.Checking?
  }

  predicate Acts(w: World, c: nat) {
    c in w.callers && w.callers[c].period in w.periods
  }

  /** All controls are read. */
  predicate Complete(w: World, c: nat) {
    Acts(w, c) && w.callers[c].phase.Checking? && |w.callers[c].phase.seen| == CONTROLS
  }

  /** Reads the status again under the row lock, which it waits for; an evaluation on its own does neither. */
  function DoLock(w: World, c: nat): World
    requires Acts(w, c)
  {
    var me := w.callers[c];
    if !me.closes then Move(w, c, Checking([]))
    else if me.seenStatus == "CLOSED" then Move(w, c, Refused)
    else if me.period in w.locks then w
    else if w.periods[me.period].status == "CLOSED" then Move(w, c, Refused)
    else Move(w.(locks := w.locks[me.period := c]), c, Checking([]))
  }

  function DoCheck(w: World, c: nat): World
    requires Acts(w, c) && w.callers[c].phase.Checking?
  {
    var seen := w.callers[c].phase.seen;
    if |seen| < CONTROLS then Move(w, c, Checking(seen + [w.books])) else w
  }

  /** The evaluation an attempt has made. */
  function MadeBy(w: World, c: nat): Evaluation
    requires Complete(w, c)
  {
    var me := w.callers[c];
    EvaluationOf(me.phase.seen, me.period, w.periods[me.period], me.actor)
  }

  /** Every attempt stores its evaluation; a ready one closes the period. */
  function DoCommit(w: World, c: nat): World
    requires Complete(w, c)
  {
    var me := w.callers[c];
    var e, n := MadeBy(w, c), |w.evaluations|;
    var saved := w.(evaluations := w.evaluations + [e]);
    if !me.closes then Move(saved, c, Recorded)
    else
      var free := saved.(locks := Without(w.locks, me.period));
      if !e.isReady then Move(free, c, Blocked)
      else
        var closed := w.periods[me.period].(status := "CLOSED", closedBy := Some(me.actor));
        Move(free.(periods := w.periods[me.period := closed], closings := w.closings + [Closing(me.period, n)]),
             c, Closed(n))
  }

  /** The rollback gives the lock back. */
  function DoCrash(w: World, c: nat): World
    requires Acts(w, c)
  {
    var me := w.callers[c];
    if Holding(me) then Move(w.(locks := Without(w.locks, me.period)), c, Crashed)
    else if me.phase.Arrived? || me.phase.Checking? then Move(w, c, Crashed)
    else w
  }

  function Step(w: World, ev: Event): World {
    match ev
    case Create(p, start, end) =>
      if p in w.periods || start >= end then w else w.(periods := w.periods[p := Period(start, end, "OPEN", None)])
    case Change(books) => w.(books := books)
    case Arrive(c, p, actor, closes) =>
      if c in w.callers || p !in w.periods then w
      else w.(callers := w.callers[c := Caller(p, actor, closes, w.periods[p].status, Arrived)])
    case Lock(c) => if Acts(w, c) && w.callers[c].phase.Arrived? then DoLock(w, c) else w
    case Check(c) => if Acts(w, c) && w.callers[c].phase.Checking? then DoCheck(w, c) else w
    case Commit(c) => if Complete(w, c) then DoCommit(w, c) else w
    case Crash(c) => if Acts(w, c) then DoCrash(w, c) else w
  }

  function Run(w: World, events: seq<Event>): World {
    if events == [] then w else Step(Run(w, events[..|events| - 1]), events[|events| - 1])
  }

  function Start(books: Books): World {
    World(books, map[], [], map[], map[], [])
  }

  // ---------------------------------------------------------------- the invariant

  /** Whoever is between lock and commit holds the period's lock, and the period is not closed. */
  predicate LocksSound(w: World) {
    forall c :: c in w.callers && Holding(w.callers[c]) ==> Holds(w, c, w.callers[c])
  }

  predicate Holds(w: World, c: nat, me: Caller) {
    && me.period in w.locks && w.locks[me.period] == c
    && me.period in w.periods && w.periods[me.period].status != "CLOSED"
  }

  /** An evaluation says of the books its controls saw what readiness means. */
  predicate EvaluationSound(w: World, e: Evaluation) {
    && e.period in w.periods
    && (e.isReady <==> ReadyInParts(e.seen, w.periods[e.period])) && (e.isReady <==> e.blockingCount == 0)
  }

  predicate EvaluationsSound(w: World) {
    forall i :: 0 <= i < |w.evaluations| ==> EvaluationSound(w, w.evaluations[i])
  }

  predicate ClosedBy(w: World, p: nat) {
    exists k :: 0 <= k < |w.closings| && w.closings[k].period == p
  }

  predicate ClosingsSound(w: World) {
    && (forall k :: 0 <= k < |w.closings| ==>
          && w.closings[k].evaluation < |w.evaluations|
          && w.evaluations[w.closings[k].evaluation].period == w.closings[k].period
          && w.evaluations[w.closings[k].evaluation].isReady
          && w.closings[k].period in w.periods && w.periods[w.closings[k].period].status == "CLOSED")
    && (forall j, k :: 0 <= j < k < |w.closings| ==> w.closings[j].period != w.closings[k].period)
    && (forall p :: p in w.periods && w.periods[p].status == "CLOSED" ==> ClosedBy(w, p))
  }

  predicate Inv(w: World) {
    LocksSound(w) && EvaluationsSound(w) && ClosingsSound(w)
  }

  /** A period's window never changes, and nothing is taken out of the tables. */
  predicate Grows(w: World, w': World) {
    && w.evaluations <= w'.evaluations && w.closings <= w'.closings
    && forall p :: p in w.periods ==> SameWindowIn(w', p, w.periods[p])
  }

  predicate SameWindowIn(w: World, p: nat, period: Period) {
    p in w.periods && w.periods[p].start == period.start && w.periods[p].end == period.end
  }

  lemma SameWindow(b: Books, p: Period, q: Period)
    requires p.start == q.start && p.end == q.end
    ensures Ready(b, p) <==> Ready(b, q)
  {
    assert forall at :: Within(p, at) == Within(q, at);
  }

  lemma SameWindowPart(i: nat, b: Books, p: Period, q: Period)
    requires p.start == q.start && p.end == q.end
    ensures Part(i, b, p) <==> Part(i, b, q)
  {
    assert forall at :: Within(p, at) == Within(q, at);
  }

  lemma SameWindowParts(seen: seq<Books>, p: Period, q: Period)
    requires p.start == q.start && p.end == q.end
    ensures ReadyInParts(seen, p) <==> ReadyInParts(seen, q)
  {
    forall i: nat | i < |seen|
      ensures Part(i, seen[i], p) <==> Part(i, seen[i], q)
    {
      SameWindowPart(i, seen[i], p, q);
    }
    if |seen| == CONTROLS {
      if ReadyInParts(seen, p) {
        forall i | 0 <= i < CONTROLS ensures Part(i, seen[i], q) { assert Part(i, seen[i], p); }
      }
      if ReadyInParts(seen, q) {
        forall i | 0 <= i < CONTROLS ensures Part(i, seen[i], p) { assert Part(i, seen[i], q); }
      }
    }
  }

  lemma StepGrows(w: World, ev: Event)
    ensures Grows(w, Step(w, ev))
  {
  }

  lemma EvaluationStaysSound(w: World, w': World, e: Evaluation)
    requires EvaluationSound(w, e) && Grows(w, w')
    ensures EvaluationSound(w', e)
  {
    SameWindowParts(e.seen, w.periods[e.period], w'.periods[e.period]);
  }

  lemma MadeIsSound(w: World, c: nat)
    requires Complete(w, c)
    ensures EvaluationSound(w, MadeBy(w, c))
  {
    PartsIff(w.callers[c].phase.seen, w.periods[w.callers[c].period]);
  }

  /** Every stored evaluation was stored before a step, or is the one the step commits. */
  lemma StepKeepsEvaluations(w: World, ev: Event)
    requires EvaluationsSound(w)
    ensures EvaluationsSound(Step(w, ev))
  {
    var w' := Step(w, ev);
    StepGrows(w, ev);
    if ev.Commit? && Complete(w, ev.c) { MadeIsSound(w, ev.c); }
    forall i | 0 <= i < |w'.evaluations|
      ensures EvaluationSound(w', w'.evaluations[i])
    {
      if i < |w.evaluations| {
        EvaluationStaysSound(w, w', w.evaluations[i]);
      } else {
        EvaluationStaysSound(w, w', MadeBy(w, ev.c));
      }
    }
  }

  lemma LockKeepsLocks(w: World, c: nat)
    requires LocksSound(w) && Acts(w, c) && w.callers[c].phase.Arrived?
    ensures LocksSound(DoLock(w, c))
  {
    var w' := DoLock(w, c);
    forall d | d in w'.callers && Holding(w'.callers[d])
      ensures Holds(w', d, w'.callers[d])
    {
      if Holding(w.callers[d]) { assert Holds(w, d, w.callers[d]); }
    }
  }

  lemma CheckKeepsLocks(w: World, c: nat)
    requires LocksSound(w) && Acts(w, c) && w.callers[c].phase.Checking?
    ensures LocksSound(DoCheck(w, c))
  {
    var w' := DoCheck(w, c);
    forall d | d in w'.callers && Holding(w'.callers[d])
      ensures Holds(w', d, w'.callers[d])
    {
      if Holding(w.callers[d]) { assert Holds(w, d, w.callers[d]); }
    }
  }

  lemma CommitKeepsLocks(w: World, c: nat)
    requires LocksSound(w) && Complete(w, c)
    ensures LocksSound(DoCommit(w, c))
  {
    var w' := DoCommit(w, c);
    forall d | d in w'.callers && Holding(w'.callers[d])
      ensures Holds(w', d, w'.callers[d])
    {
      if Holding(w.callers[d]) { assert Holds(w, d, w.callers[d]); }
    }
  }

  lemma CrashKeepsLocks(w: World, c: nat)
    requires LocksSound(w) && Acts(w, c)
    ensures LocksSound(DoCrash(w, c))
  {
    var w' := DoCrash(w, c);
    forall d | d in w'.callers && Holding(w'.callers[d])
      ensures Holds(w', d, w'.callers[d])
    {
      if Holding(w.callers[d]) { assert Holds(w, d, w.callers[d]); }
    }
  }

  lemma StepKeepsLocks(w: World, ev: Event)
    requires LocksSound(w)
    ensures LocksSound(Step(w, ev))
  {
    match ev {
      case Lock(c) => if Acts(w, c) && w.callers[c].phase.Arrived? { LockKeepsLocks(w, c); }
      case Check(c) => if Acts(w, c) && w.callers[c].phase.Checking? { CheckKeepsLocks(w, c); }
      case Commit(c) => if Complete(w, c) { CommitKeepsLocks(w, c); }
      case Crash(c) => if Acts(w, c) { CrashKeepsLocks(w, c); }
      case _ => OthersKeepLocks(w, ev);
    }
  }

  lemma OthersKeepLocks(w: World, ev: Event)
    requires LocksSound(w) && (ev.Create? || ev.Change? || ev.Arrive?)
    ensures LocksSound(Step(w, ev))
  {
    var w' := Step(w, ev);
    forall d | d in w'.callers && Holding(w'.callers[d])
      ensures Holds(w', d, w'.callers[d])
    {
      assert Holds(w, d, w.callers[d]);
    }
  }

  lemma StepKeepsClosings(w: World, ev: Event)
    requires LocksSound(w) && ClosingsSound(w)
    ensures ClosingsSound(Step(w, ev))
  {
    var w' := Step(w, ev);
    StepGrows(w, ev);
    if w'.closings == w.closings {
      OthersCloseNothing(w, ev);
      SameClosings(w, w');
    } else {
      CommitKeepsClosings(w, ev.c);
    }
  }

  ghost predicate SameStatuses(w: World, w': World) {
    forall p :: (p in w'.periods && w'.periods[p].status == "CLOSED") <==>
        (p in w.periods && w.periods[p].status == "CLOSED")
  }

  lemma OthersCloseNothing(w: World, ev: Event)
    requires Step(w, ev).closings == w.closings
    ensures SameStatuses(w, Step(w, ev))
  {
    assert ev.Commit? && Complete(w, ev.c) && w.callers[ev.c].closes && MadeBy(w, ev.c).isReady
      ==> |Step(w, ev).closings| == |w.closings| + 1;
  }

  lemma SameClosings(w: World, w': World)
    requires ClosingsSound(w) && SameStatuses(w, w') && w'.closings == w.closings && w.evaluations <= w'.evaluations
    ensures ClosingsSound(w')
  {
    forall p | p in w'.periods && w'.periods[p].status == "CLOSED"
      ensures ClosedBy(w', p)
    {
      ClosedStays(w, w', p);
    }
  }

  lemma CommitKeepsClosings(w: World, c: nat)
    requires LocksSound(w) && ClosingsSound(w)
    requires Complete(w, c) && w.callers[c].closes && MadeBy(w, c).isReady
    ensures ClosingsSound(Step(w, Commit(c)))
  {
    var w' := Step(w, Commit(c));
    var p := w.callers[c].period;
    assert Holds(w, c, w.callers[c]);
    assert w'.closings == w.closings + [Closing(p, |w.evaluations|)];
    assert w'.closings[|w.closings|].period == p;
    forall q | q in w'.periods && w'.periods[q].status == "CLOSED"
      ensures ClosedBy(w', q)
    {
      if q != p { ClosedStays(w, w', q); }
    }
  }

  lemma ClosedStays(w: World, w': World, p: nat)
    requires ClosedBy(w, p) && w.closings <= w'.closings
    ensures ClosedBy(w', p)
  {
    var k :| 0 <= k < |w.closings| && w.closings[k].period == p;
    assert w'.closings[k].period == p;
  }

  lemma StepKeepsInv(w: World, ev: Event)
    requires Inv(w)
    ensures Inv(Step(w, ev))
  {
    StepKeepsEvaluations(w, ev);
    StepKeepsLocks(w, ev);
    StepKeepsClosings(w, ev);
  }

  lemma {:induction false} RunKeepsInv(w: World, events: seq<Event>)
    requires Inv(w)
    ensures Inv(Run(w, events)) && Grows(w, Run(w, events))
  {
    if events != [] {
      RunKeepsInv(w, events[..|events| - 1]);
      StepKeepsInv(Run(w, events[..|events| - 1]), events[|events| - 1]);
      StepGrows(Run(w, events[..|events| - 1]), events[|events| - 1]);
    }
  }

  predicate ClosesReady(e: Evaluation, p: nat, period: Period) {
    e.period == p && e.isReady && e.blockingCount == 0 && ReadyInParts(e.seen, period)
  }

  /**
   However close attempts, evaluations, crashes and other work overlap, down to the query of
   each control: a period is CLOSED exactly when one attempt closed it, never two, and that
   attempt stored an evaluation that is ready with no blocker, each of its controls having found
   its part of the period ready in the books it read.
   */
  lemma {:induction false} ClosedOnceAndReady(books: Books, events: seq<Event>, p: nat)
    requires p in Run(Start(books), events).periods
    ensures var w := Run(Start(books), events);
      && (w.periods[p].status == "CLOSED" <==> ClosedBy(w, p))
      && (forall j, k :: 0 <= j < k < |w.closings| && w.closings[j].period == p ==> w.closings[k].period != p)
      && (forall k :: 0 <= k < |w.closings| && w.closings[k].period == p ==>
            && w.closings[k].evaluation < |w.evaluations|
            && ClosesReady(w.evaluations[w.closings[k].evaluation], p, w.periods[p]))
  {
    RunKeepsInv(Start(books), events);
    var w := Run(Start(books), events);
    forall k | 0 <= k < |w.closings|
      ensures EvaluationSound(w, w.evaluations[w.closings[k].evaluation])
    {
      assert w.closings[k].evaluation < |w.evaluations|;
    }
  }

  /** A blocked attempt leaves its evaluation and nothing else: periods and closings stay as they are. */
  lemma BlockedAttemptOnlyRecords(w: World, c: nat)
    requires Inv(w) && Complete(w, c) && w.callers[c].closes
    requires !ReadyInParts(w.callers[c].phase.seen, w.periods[w.callers[c].period])
    ensures var w' := Step(w, Commit(c));
      && w'.evaluations == w.evaluations + [MadeBy(w, c)] && MadeBy(w, c).blockingCount > 0
      && w'.periods == w.periods && w'.closings == w.closings && w'.books == w.books && w'.callers[c].phase == Blocked
  {
    MadeIsSound(w, c);
  }

  // ---------------------------------------------------------------- what the row lock does not cover

  /** The books after the last change among the events. */
  function BooksAfter(books: Books, events: seq<Event>): Books {
    if events == [] then books
    else if events[|events| - 1].Change? then events[|events| - 1].books
    else BooksAfter(books, events[..|events| - 1])
  }

  lemma {:induction false} RunBooks(w: World, events: seq<Event>)
    ensures Run(w, events).books == BooksAfter(w.books, events)
  {
    if events != [] { RunBooks(w, events[..|events| - 1]); }
  }

  lemma {:induction false} UnchangedBooks(books: Books, events: seq<Event>)
    requires forall i :: 0 <= i < |events| ==> !events[i].Change?
    ensures BooksAfter(books, events) == books
  {
    if events != [] { UnchangedBooks(books, events[..|events| - 1]); }
  }

  /** Neither commits nor crashes the caller. */
  predicate LeavesAlone(ev: Event, c: nat) {
    ev != Commit(c) && ev != Crash(c)
  }

  /** The books that the caller's controls are read from; after the last control it reads no more. */
  function Readings(books: Books, events: seq<Event>, c: nat): seq<Books> {
    if events == [] then []
    else
      var before, n := Readings(books, events[..|events| - 1], c), |events| - 1;
      if events[n] == Check(c) && |before| < CONTROLS then before + [BooksAfter(books, events[..n])] else before
  }

  /** A close attempt that has just got the lock. */
  predicate HasLock(w: World, c: nat) {
    c in w.callers && w.callers[c].closes && w.callers[c].phase == Checking([])
  }

  lemma CheckReads(w: World, ev: Event, c: nat)
    requires Acts(w, c) && w.callers[c].phase.Checking? && LeavesAlone(ev, c)
    ensures var seen := w.callers[c].phase.seen;
      c in Step(w, ev).callers && Step(w, ev).callers[c] == w.callers[c].(phase :=
        Checking(if ev == Check(c) && |seen| < CONTROLS then seen + [w.books] else seen))
  {
  }

  lemma {:induction false} ChecksRead(w: World, events: seq<Event>, c: nat)
    requires Inv(w) && HasLock(w, c)
    requires forall i :: 0 <= i < |events| ==> LeavesAlone(events[i], c)
    ensures var w' := Run(w, events);
      c in w'.callers && w'.callers[c] == w.callers[c].(phase := Checking(Readings(w.books, events, c)))
  {
    if events != [] {
      var n := |events| - 1;
      var before := Run(w, events[..n]);
      ChecksRead(w, events[..n], c);
      RunKeepsInv(w, events[..n]);
      assert Holds(before, c, before.callers[c]);
      RunBooks(w, events[..n]);
      CheckReads(before, events[n], c);
    }
  }

  /** An attempt that holds the lock, everything that happens until its controls are read, and its commit. */
  function CloseAttempt(w: World, c: nat, during: seq<Event>): World {
    Step(Run(w, during), Commit(c))
  }

  predicate IsClosed(w: World, p: nat) {
    p in w.periods && w.periods[p].status == "CLOSED"
  }

  predicate IsReady(w: World, p: nat) {
    p in w.periods && Ready(w.books, w.periods[p])
  }

  /** The caller about to commit still holds the lock, and its readings. */
  lemma {:induction false} AwaitsCommit(w: World, c: nat, during: seq<Event>)
    requires Inv(w) && HasLock(w, c)
    requires forall i :: 0 <= i < |during| ==> LeavesAlone(during[i], c)
    ensures var waiting, p := Run(w, during), w.callers[c].period;
      && p in w.periods && SameWindowIn(waiting, p, w.periods[p]) && !IsClosed(waiting, p)
      && c in waiting.callers && waiting.callers[c] == w.callers[c].(phase := Checking(Readings(w.books, during, c)))
      && waiting.books == BooksAfter(w.books, during)
  {
    assert Holds(w, c, w.callers[c]);
    RunKeepsInv(w, during);
    ChecksRead(w, during, c);
    assert Holds(Run(w, during), c, Run(w, during).callers[c]);
    RunBooks(w, during);
  }

  lemma CommitCloses(w: World, c: nat)
    requires Complete(w, c) && w.callers[c].closes && !IsClosed(w, w.callers[c].period)
    ensures var w', p := Step(w, Commit(c)), w.callers[c].period;
      && w'.books == w.books && SameWindowIn(w', p, w.periods[p])
      && (IsClosed(w', p) <==> ReadyInParts(w.callers[c].phase.seen, w.periods[p]))
  {
    MadeIsSound(w, c);
  }

  lemma {:induction false} ReadingsOfStillBooks(books: Books, events: seq<Event>, c: nat)
    requires forall i :: 0 <= i < |events| ==> !events[i].Change?
    ensures forall i :: 0 <= i < |Readings(books, events, c)| ==> Readings(books, events, c)[i] == books
  {
    if events != [] {
      ReadingsOfStillBooks(books, events[..|events| - 1], c);
      UnchangedBooks(books, events[..|events| - 1]);
    }
  }

  /**
   The lock is on the period row alone, so the books may change from one control to the next and
   before the commit, and nothing is looked at again. Whatever happens, the attempt closes the
   period exactly when each control found its part ready in the books it read, and it leaves a
   closed period over books that are not ready exactly when moreover the last change made them so.
   */
  lemma {:induction false} ClosesOnStaleBooksIff(w: World, c: nat, during: seq<Event>)
    requires Inv(w) && HasLock(w, c) && |Readings(w.books, during, c)| == CONTROLS
    requires forall i :: 0 <= i < |during| ==> LeavesAlone(during[i], c)
    ensures w.callers[c].period in w.periods
    ensures CloseAttempt(w, c, during).books == BooksAfter(w.books, during)
    ensures var w', p := CloseAttempt(w, c, during), w.callers[c].period;
      IsClosed(w', p) <==> ReadyInParts(Readings(w.books, during, c), w.periods[p])
    ensures var w', p := CloseAttempt(w, c, during), w.callers[c].period;
      IsClosed(w', p) && !IsReady(w', p)
      <==> ReadyInParts(Readings(w.books, during, c), w.periods[p])
           && !Ready(BooksAfter(w.books, during), w.periods[p])
  {
    var waiting, w', p := Run(w, during), CloseAttempt(w, c, during), w.callers[c].period;
    AwaitsCommit(w, c, during);
    CommitCloses(waiting, c);
    SameWindowParts(Readings(w.books, during, c), w.periods[p], waiting.periods[p]);
    SameWindow(w'.books, w.periods[p], w'.periods[p]);
  }

  /** Without a change while it holds the lock, an attempt closes the period exactly when its books are ready. */
  lemma {:induction false} ClosesOnReadyBooksIff(w: World, c: nat, during: seq<Event>)
    requires Inv(w) && HasLock(w, c) && |Readings(w.books, during, c)| == CONTROLS
    requires forall i :: 0 <= i < |during| ==> LeavesAlone(during[i], c) && !during[i].Change?
    ensures var w', p := CloseAttempt(w, c, during), w.callers[c].period;
      && (IsClosed(w', p) <==> IsReady(w, p))
      && (IsClosed(w', p) ==> IsReady(w', p))
  {
    var p := w.callers[c].period;
    ClosesOnStaleBooksIff(w, c, during);
    UnchangedBooks(w.books, during);
    ReadingsOfStillBooks(w.books, during, c);
    assert Readings(w.books, during, c) == Still(w.books);
    StillIff(w.books, w.periods[p]);
  }

  // An execution runs while the first five controls are read; then a payment arrives and the execution fails.

  function RunningBooks(at: int): Books {
    Books([], [], [], [], [Execution(0, at, "RUNNING")])
  }

  function FailedBooks(at: int): Books {
    Books([Record(at, "CAPTURED")], [], [], [], [Execution(0, at, "FAILED")])
  }

  function TornAttempt(c: nat, at: int): seq<Event> {
    [Check(c), Check(c), Check(c), Check(c), Check(c), Change(FailedBooks(at)), Check(c), Check(c)]
  }

  lemma NeitherIsReady(at: int, p: Period)
    requires Within(p, at)
    ensures !Ready(RunningBooks(at), p) && !Ready(FailedBooks(at), p)
    ensures forall i: nat :: i < 5 ==> Part(i, RunningBooks(at), p)
    ensures forall i: nat :: 5 <= i < CONTROLS ==> Part(i, FailedBooks(at), p)
  {
    assert Execution(0, at, "RUNNING") in RunningBooks(at).executions;
    assert Record(at, "CAPTURED") in FailedBooks(at).payments;
    assert "CAPTURED"[0] != "RECONCILED"[0] && "FAILED"[0] != "PENDING"[0] && "FAILED"[0] != "RUNNING"[0]
      && "FAILED"[0] != "UNKNOWN"[0];
  }

  lemma {:induction false} TornReadings(c: nat, at: int)
    ensures var a, b := RunningBooks(at), FailedBooks(at);
      Readings(a, TornAttempt(c, at), c) == [a, a, a, a, a, b, b]
    ensures BooksAfter(RunningBooks(at), TornAttempt(c, at)) == FailedBooks(at)
  {
    var all := TornAttempt(c, at);
    var a, b := RunningBooks(at), FailedBooks(at);
    FiveChecks(c, a);
    assert all[..5] == [Check(c), Check(c), Check(c), Check(c), Check(c)];
    assert all[..6][..5] == all[..5] && all[..7][..6] == all[..6] && all[..8] == all && all[..8][..7] == all[..7];
    assert Readings(a, all[..6], c) == Readings(a, all[..5], c) && BooksAfter(a, all[..6]) == b;
    assert Readings(a, all[..7], c) == [a, a, a, a, a, b] && BooksAfter(a, all[..7]) == b;
  }

  lemma {:induction false} FiveChecks(c: nat, a: Books)
    ensures var k := Check(c);
      Readings(a, [k, k, k, k, k], c) == [a, a, a, a, a] && BooksAfter(a, [k, k, k, k, k]) == a
  {
    var k := Check(c);
    assert [k, k, k, k, k][..4] == [k, k, k, k] && [k, k, k, k][..3] == [k, k, k] && [k, k, k][..2] == [k, k];
    assert [k, k][..1] == [k] && [k][..0] == [];
    assert Readings(a, [k], c) == [a] && BooksAfter(a, [k]) == a;
    assert Readings(a, [k, k], c) == [a, a] && BooksAfter(a, [k, k]) == a;
    assert Readings(a, [k, k, k], c) == [a, a, a] && BooksAfter(a, [k, k, k]) == a;
    assert Readings(a, [k, k, k, k], c) == [a, a, a, a] && BooksAfter(a, [k, k, k, k]) == a;
  }

  /** So a period can close although at no moment of the attempt the books were ready. */
  lemma {:induction false} ClosesThoughNeverReady(w: World, c: nat, at: int)
    requires Inv(w) && HasLock(w, c) && w.callers[c].period in w.periods
    requires Within(w.periods[w.callers[c].period], at) && w.books == RunningBooks(at)
    ensures var p := w.callers[c].period;
      && IsClosed(CloseAttempt(w, c, TornAttempt(c, at)), p)
      && forall k: nat :: k <= |TornAttempt(c, at)| ==>
           !Ready(BooksAfter(w.books, TornAttempt(c, at)[..k]), w.periods[p])
  {
    var p, all := w.callers[c].period, TornAttempt(c, at);
    TornReadings(c, at);
    NeitherIsReady(at, w.periods[p]);
    ClosesOnStaleBooksIff(w, c, all);
    forall k: nat | k <= |all|
      ensures BooksAfter(w.books, all[..k]) == if k <= 5 then RunningBooks(at) else FailedBooks(at)
    {
      OneChange(w.books, all, k);
    }
  }

  lemma {:induction false} OneChange(books: Books, events: seq<Event>, k: nat)
    requires k <= |events| && |events| > 5 && events[5].Change?
    requires forall i :: 0 <= i < |events| && i != 5 ==> !events[i].Change?
    ensures BooksAfter(books, events[..k]) == if k <= 5 then books else events[5].books
  {
    if k > 0 {
      OneChange(books, events, k - 1);
      assert events[..k][..k - 1] == events[..k - 1];
    }
  }

  // ---------------------------------------------------------------- the chain behind a resolved discrepancy

  function Text(status: ActionExecution.ExecStatus): string {
    match status
    case Pending => "PENDING"
    case Running => "RUNNING"
    case Succeeded => "SUCCEEDED"
    case Failed => "FAILED"
    case Unknown => "UNKNOWN"
  }

  /** The books read the request and execution tables of the governance services. */
  predicate Mirrors(b: Books, g: Governance.Gov) {
    && |b.requests| == |g.requests| && |b.executions| == |g.executions|
    && (forall r :: 0 <= r < |g.requests| ==>
          b.requests[r].id == r && b.requests[r].discrepancy == g.requests[r].discrepancy)
    && (forall e :: 0 <= e < |g.executions| ==>
          b.executions[e].request == g.executions[e].request && b.executions[e].status == Text(g.executions[e].status))
  }

  ghost predicate SucceededByTheChain(g: Governance.Gov, discrepancy: string, e: nat) {
    e < |g.executions| && g.executions[e].status.Succeeded? && Governance.ByChain(g, discrepancy, e)
  }

  lemma OnlySucceededReadsSo(status: ActionExecution.ExecStatus)
    ensures Text(status) == "SUCCEEDED" <==> status.Succeeded?
  {
    assert Text(status)[0] == 'S' <==> status.Succeeded?;
  }

  /**
   The close check looks requests up by their discrepancy column. In every state the services
   reach it finds a discrepancy resolved exactly when the chain of investigation, evaluation,
   request and execution leads from it to an execution that SUCCEEDED.
   */
  lemma {:induction false} ResolvedByTheChain(ops: seq<Governance.Op>, b: Books, discrepancy: string)
    requires Mirrors(b, Governance.RunOps(Governance.EMPTY, ops))
    ensures var g := Governance.RunOps(Governance.EMPTY, ops);
      Resolved(b, discrepancy) <==> exists e :: SucceededByTheChain(g, discrepancy, e)
  {
    var g := Governance.RunOps(Governance.EMPTY, ops);
    if Resolved(b, discrepancy) {
      var r :| r in b.requests && r.discrepancy == discrepancy && HasSucceeded(b, r);
      var k :| 0 <= k < |b.requests| && b.requests[k] == r;
      var x :| x in b.executions && x.request == r.id && x.status == "SUCCEEDED";
      var e :| 0 <= e < |b.executions| && b.executions[e] == x;
      OnlySucceededReadsSo(g.executions[e].status);
      assert g.requests[k].discrepancy == discrepancy && g.executions[e].request == k;
      Governance.ShortcutFindsTheChain(ops, discrepancy, e);
      assert SucceededByTheChain(g, discrepancy, e);
    }
    if e: nat :| SucceededByTheChain(g, discrepancy, e) {
      Governance.ShortcutFindsTheChain(ops, discrepancy, e);
      var r: nat :| r < |g.requests| && g.requests[r].discrepancy == discrepancy && g.executions[e].request == r;
      assert b.executions[e] in b.executions && b.requests[r] in b.requests;
      assert HasSucceeded(b, b.requests[r]);
    }
  }

  // ---------------------------------------------------------------- the service

  datatype CloseResult = ClosedNow | AlreadyClosed | Mismatch | StillBlocked(blockers: nat)

  class PeriodService {
    var books: Books
    var periods: map<nat, Period>
    var evaluations: seq<Evaluation>

    constructor (books: Books, periods: map<nat, Period>)
      ensures this.books == books && this.periods == periods && evaluations == []
    {
      this.books, this.periods, evaluations := books, periods, [];
    }

    method CountOf<T>(rows: seq<T>, counts: T -> bool) returns (n: nat)
      ensures n == Count(rows, counts)
    {
      n := 0;
      for i := 0 to |rows|
        invariant n == Count(rows[..i], counts)
      {
        assert rows[..i + 1][..i] == rows[..i];
        if counts(rows[i]) { n := n + 1; }
      }
      assert rows[..|rows|] == rows;
    }

    /** Walks a discrepancy's requests and their executions until one has succeeded. */
    method IsResolved(discrepancy: string) returns (resolved: bool)
      ensures resolved <==> Resolved(books, discrepancy)
    {
      resolved := false;
      for i := 0 to |books.requests|
        invariant !resolved
        invariant forall a :: 0 <= a < i && books.requests[a].discrepancy == discrepancy ==>
            !HasSucceeded(books, books.requests[a])
      {
        var ar := books.requests[i];
        if ar.discrepancy == discrepancy {
          for j := 0 to |books.executions|
            invariant !resolved
            invariant forall b :: 0 <= b < j ==>
                books.executions[b].request != ar.id || books.executions[b].status != "SUCCEEDED"
          {
            if books.executions[j].request == ar.id && books.executions[j].status == "SUCCEEDED" {
              resolved := true;
              break;
            }
          }
          if resolved { break; }
        }
      }
    }

    method CountUnresolved(p: Period) returns (n: nat)
      ensures n == Count(books.discrepancies, Unresolved(books, p))
    {
      n := 0;
      for i := 0 to |books.discrepancies|
        invariant n == Count(books.discrepancies[..i], Unresolved(books, p))
      {
        assert books.discrepancies[..i + 1][..i] == books.discrepancies[..i];
        var d := books.discrepancies[i];
        if Within(p, d.created) {
          var resolved := IsResolved(d.id);
          if !resolved { n := n + 1; }
        }
      }
      assert books.discrepancies[..|books.discrepancies|] == books.discrepancies;
    }

    method EvaluateCloseReadiness(p: Period) returns (controls: seq<Control>, isReady: bool)
      ensures controls == Controls(Still(books), p)
      ensures isReady <==> Ready(books, p)
    {
      controls := [];
      ControlsOfStill(books, p);
      var n := CountOf(books.payments, Unreconciled(p));
      controls := controls + [Control(UnreconciledTransactions, n > 0, n)];
      n := CountUnresolved(p);
      controls := controls + [Control(UnresolvedExceptions, n > 0, n)];
      n := CountOf(books.investigations, Investigations(p, "PENDING"));
      controls := controls + [Control(PendingInvestigations, n > 0, n)];
      n := CountOf(books.investigations, Investigations(p, "FAILED"));
      controls := controls + [Control(FailedInvestigations, n > 0, n)];
      n := CountOf(books.requests, Undecided(p));
      controls := controls + [Control(PendingActionRequests, n > 0, n)];
      n := CountOf(books.executions, Executions(p, {"PENDING", "RUNNING"}));
      controls := controls + [Control(RunningExecutions, n > 0, n)];
      n := CountOf(books.executions, Executions(p, {"UNKNOWN"}));
      controls := controls + [Control(UnknownExecutions, n > 0, n)];
      isReady := AllPass(controls);
      ReadyIff(books, p);
    }

    method MakeEvaluation(p: nat, actor: string) returns (e: Evaluation)
      requires p in periods
      ensures e == EvaluationOf(Still(books), p, periods[p], actor)
    {
      var controls, isReady := EvaluateCloseReadiness(periods[p]);
      var blocking := 0;
      for i := 0 to |controls|
        invariant blocking == Blocking(controls[..i])
      {
        assert controls[..i + 1][..i] == controls[..i];
        if controls[i].blocked { blocking := blocking + 1; }
      }
      assert controls[..|controls|] == controls;
      ReadyIff(books, periods[p]);
      e := Evaluation(p, actor, isReady, blocking, controls, Still(books));
    }

    method RecordPeriodEvaluation(p: nat, actor: string)
      requires p in periods
      modifies `evaluations
      ensures evaluations == old(evaluations) + [EvaluationOf(Still(books), p, periods[p], actor)]
    {
      var e := MakeEvaluation(p, actor);
      evaluations := evaluations + [e];
    }

    /**
     One undisturbed attempt; `seenStatus` is the status the caller loaded earlier. The
     period closes exactly when neither reading finds it CLOSED and the books are ready.
     */
    method ClosePeriod(p: nat, seenStatus: string, actor: string) returns (result: CloseResult)
      requires p in periods
      modifies `periods, `evaluations
      ensures result.AlreadyClosed? <==> seenStatus == "CLOSED"
      ensures result.Mismatch? <==> seenStatus != "CLOSED" && old(periods)[p].status == "CLOSED"
      ensures result.ClosedNow? <==>
          seenStatus != "CLOSED" && old(periods)[p].status != "CLOSED" && Ready(books, old(periods)[p])
      ensures periods == if result.ClosedNow?
                         then old(periods)[p := old(periods)[p].(status := "CLOSED", closedBy := Some(actor))]
                         else old(periods)
      ensures evaluations == if result.AlreadyClosed? || result.Mismatch? then old(evaluations)
                             else old(evaluations) + [EvaluationOf(Still(books), p, old(periods)[p], actor)]
      ensures result.StillBlocked? ==> result.blockers > 0
    {
      if seenStatus == "CLOSED" { return AlreadyClosed; }
      if periods[p].status == "CLOSED" { return Mismatch; }
      var e := MakeEvaluation(p, actor);
      ReadyIff(books, periods[p]);
      evaluations := evaluations + [e];
      if !e.isReady { return StillBlocked(e.blockingCount); }
      periods := periods[p := periods[p].(status := "CLOSED", closedBy := Some(actor))];
      return ClosedNow;
    }
  }
}
