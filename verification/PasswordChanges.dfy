/**
 Password changes that overlap. Each writes the credential version it read with its session plus
 one, so a change that was overtaken repeats a version or goes back to one. What a change ends,
 and what holds as long as no change was overtaken.
 */
module PasswordChanges {
  import opened Exchanges
  import opened Sessions
  import opened Wrappers

  // ---------------------------------------------------------------- stale commits

  /** The version that the change has read lies below the stored one: another change or reset came first. */
  predicate Stale(d: Desk, c: nat) {
    && c in d.changes && d.changes[c].user in d.s.users
    && OrOne(d.changes[c].version) < d.s.users[d.changes[c].user].version
  }

  predicate StaleCommit(d: Desk, m: Move) {
    m.WriteChange? && CommitsChange(d, m.c, m.current, m.next, m.policyOk) && Stale(d, m.c)
  }

  predicate StaleAt(d: Desk, moves: seq<Move>, k: nat) {
    k < |moves| && StaleCommit(Play(d, moves[..k]), moves[k])
  }

  predicate NeverStale(d: Desk, moves: seq<Move>) {
    forall k: nat :: k < |moves| ==> !StaleAt(d, moves, k)
  }

  lemma {:induction false} StalePrefix(d: Desk, moves: seq<Move>)
    requires moves != [] && NeverStale(d, moves)
    ensures NeverStale(d, moves[..|moves| - 1])
    ensures !StaleCommit(Play(d, moves[..|moves| - 1]), moves[|moves| - 1])
  {
    var n := |moves| - 1;
    forall k: nat | k < n
      ensures !StaleAt(d, moves[..n], k)
    {
      assert moves[..n][..k] == moves[..k];
      assert !StaleAt(d, moves, k);
    }
    assert !StaleAt(d, moves, n);
  }

  // ---------------------------------------------------------------- without stale commits, versions only grow

  /** Commits of exchanges and disablings leave versions, the clock and issued tokens as they are. */
  lemma CommitGrows(d: Desk, c: nat, answers: bool)
    ensures var d' := DoWrite(d, c, answers);
      VersionsGrow(d.s.users, d'.s.users) && d.s.issued <= d'.s.issued && d'.s.now == d.s.now
      && forall t, exp :: RevokedPast(d.s.revocations, t, exp) ==> RevokedPast(d'.s.revocations, t, exp)
  {
    var d' := DoWrite(d, c, answers);
    forall t, exp | RevokedPast(d.s.revocations, t, exp)
      ensures RevokedPast(d'.s.revocations, t, exp)
    {
      var i :| 0 <= i < |d.s.revocations| && d.s.revocations[i].jti == t && d.s.revocations[i].expires >= exp;
      assert d'.s.revocations[i] == d.s.revocations[i];
    }
  }

  lemma ChangeGrows(d: Desk, c: nat, current: string, next: string, policyOk: bool)
    requires !StaleCommit(d, WriteChange(c, current, next, policyOk))
    ensures VersionsGrow(d.s.users, DoWriteChange(d, c, current, next, policyOk).s.users)
  {
  }

  lemma NextGrows(d: Desk, m: Move)
    requires !StaleCommit(d, m)
    ensures VersionsGrow(d.s.users, Next(d, m).s.users) && d.s.issued <= Next(d, m).s.issued
  {
    match m {
      case Serve(ev) => StepGrows(d.s, ev);
      case Write(c, answers) => CommitGrows(d, c, answers);
      case WriteChange(c, current, next, policyOk) => ChangeGrows(d, c, current, next, policyOk);
      case _ =>
    }
  }

  lemma DeadStays(d: Desk, m: Move, t: nat)
    requires Dead(d.s, t) && !StaleCommit(d, m)
    ensures Dead(Next(d, m).s, t)
  {
    NextGrows(d, m);
    match m {
      case Serve(ev) => DeadStaysDead(d.s, ev, t);
      case Write(c, answers) => CommitGrows(d, c, answers);
      case _ =>
    }
  }

  /**
   As long as no commit is stale, credential versions only grow and a dead token stays dead,
   however exchanges, disablings, changes and all other requests overlap.
   */
  lemma {:induction false} DeadUnlessStale(d: Desk, moves: seq<Move>, t: nat)
    requires NeverStale(d, moves)
    ensures VersionsGrow(d.s.users, Play(d, moves).s.users)
    ensures Dead(d.s, t) ==> Dead(Play(d, moves).s, t)
  {
    if moves != [] {
      var before := Play(d, moves[..|moves| - 1]);
      StalePrefix(d, moves);
      DeadUnlessStale(d, moves[..|moves| - 1], t);
      NextGrows(before, moves[|moves| - 1]);
      if Dead(before.s, t) { DeadStays(before, moves[|moves| - 1], t); }
    }
  }

  // ---------------------------------------------------------------- what is behind the stored version

  predicate Behind(d: Desk) {
    && TokensBehind(d.s)
    && (forall c :: c in d.open ==>
          d.open[c].user in d.s.users && d.open[c].version <= d.s.users[d.open[c].user].version)
    && (forall c :: c in d.changes ==>
          d.changes[c].user in d.s.users && 0 < d.changes[c].version <= d.s.users[d.changes[c].user].version)
    && (forall u :: u in d.s.users ==> d.s.users[u].version > 0)
  }

  lemma StepKeepsPositive(s: State, ev: Event)
    requires forall u :: u in s.users ==> s.users[u].version > 0
    ensures forall u :: u in Step(s, ev).users ==> Step(s, ev).users[u].version > 0
  {
  }

  lemma CommitKeepsBehind(d: Desk, c: nat, answers: bool)
    requires Behind(d)
    ensures Behind(DoWrite(d, c, answers))
  {
  }

  lemma ChangeKeepsBehind(d: Desk, c: nat, current: string, next: string, policyOk: bool)
    requires Behind(d) && !StaleCommit(d, WriteChange(c, current, next, policyOk))
    ensures Behind(DoWriteChange(d, c, current, next, policyOk))
  {
  }

  lemma NextKeepsBehind(d: Desk, m: Move)
    requires TokensKnown(d.s) && Behind(d) && !StaleCommit(d, m)
    ensures Behind(Next(d, m))
  {
    match m {
      case Serve(ev) =>
        StepKeepsTokens(d.s, ev);
        StepGrows(d.s, ev);
        StepKeepsPositive(d.s, ev);
      case Write(c, answers) => CommitKeepsBehind(d, c, answers);
      case WriteChange(c, current, next, policyOk) => ChangeKeepsBehind(d, c, current, next, policyOk);
      case _ =>
    }
  }

  lemma {:induction false} PlayKeepsBehind(now: Instant, moves: seq<Move>)
    requires NeverStale(Opened(now), moves)
    ensures Inv(Play(Opened(now), moves)) && Behind(Play(Opened(now), moves))
  {
    PlayKeepsInv(Opened(now), moves);
    if moves != [] {
      StalePrefix(Opened(now), moves);
      PlayKeepsBehind(now, moves[..|moves| - 1]);
      NextKeepsBehind(Play(Opened(now), moves[..|moves| - 1]), moves[|moves| - 1]);
    }
  }

  // ---------------------------------------------------------------- what a change ends

  /**
   What one committed change does to a session of its user that is neither expired nor revoked:
   the session is accepted afterwards exactly when it carries the version the change read, plus
   one. A session that was good stays so if exactly one other change came first; one that an
   earlier change had ended comes back if it carries that version.
   */
  lemma SessionAfterChangeIff(d: Desk, c: nat, current: string, next: string, t: nat)
    requires CommitsChange(d, c, current, next, true)
    requires Decodes(d.s, t) && !d.s.issued[t].origin.Challenge? && !IsRevoked(d.s.revocations, t)
    requires d.s.issued[t].user == d.changes[c].user && d.s.users[d.changes[c].user].active
    ensures Authenticate(DoWriteChange(d, c, current, next, true).s, t, true).Some?
       <==> d.s.issued[t].cver == OrOne(d.changes[c].version) + 1
  {
  }

  lemma WholeSeconds(now: Instant, ttl: int)
    requires ttl >= SECOND
    ensures Expiry(now, ttl) > now
  {
  }

  predicate RevocationsKnown(s: State) {
    forall i :: 0 <= i < |s.revocations| ==> s.revocations[i].jti < |s.issued|
  }

  lemma {:induction false} PurgeKeepsKnown(rows: seq<Revocation>, now: Instant, n: nat)
    requires forall i :: 0 <= i < |rows| ==> rows[i].jti < n
    ensures forall i :: 0 <= i < |PurgeExpired(rows, now)| ==> PurgeExpired(rows, now)[i].jti < n
  {
    forall i | 0 <= i < |PurgeExpired(rows, now)|
      ensures PurgeExpired(rows, now)[i].jti < n
    {
      PurgeMembers(rows, now, PurgeExpired(rows, now)[i]);
    }
  }

  lemma NextKeepsKnown(d: Desk, m: Move)
    requires Inv(d) && RevocationsKnown(d.s)
    ensures RevocationsKnown(Next(d, m).s)
  {
    if m.Serve? && m.ev.Purge? { PurgeKeepsKnown(d.s.revocations, d.s.now, |d.s.issued|); }
  }

  lemma {:induction false} PlayKeepsKnown(now: Instant, moves: seq<Move>)
    ensures RevocationsKnown(Play(Opened(now), moves).s)
  {
    if moves != [] {
      PlayKeepsKnown(now, moves[..|moves| - 1]);
      PlayKeepsInv(Opened(now), moves[..|moves| - 1]);
      NextKeepsKnown(Play(Opened(now), moves[..|moves| - 1]), moves[|moves| - 1]);
    }
  }

  /** The user signs in once more, with the password about to be replaced, right before the change commits. */
  function AfterLateLogin(d: Desk, c: nat, current: string, next: string): Desk
    requires c in d.changes
  {
    Next(Next(d, Serve(Login(d.changes[c].user, current))), WriteChange(c, current, next, true))
  }

  lemma LateLogin(d: Desk, u: string, current: string)
    requires u in d.s.users && d.s.users[u].active && d.s.users[u].password == current && RevocationsKnown(d.s)
    ensures var s' := Step(d.s, Login(u, current));
      && s' == d.s.(issued := s'.issued) && |s'.issued| == |d.s.issued| + 1 && d.s.issued <= s'.issued
      && s'.issued[|d.s.issued|].user == u && s'.issued[|d.s.issued|].cver == OrOne(d.s.users[u].version)
      && !Burnt(s', |d.s.issued|)
  {
    WholeSeconds(d.s.now, ACCESS_TTL);
    WholeSeconds(d.s.now, CHALLENGE_TTL);
  }

  /**
   Over every run without an earlier stale commit: a change that commits ends every token of
   its user, even one handed out right before, if and only if the version it has read is still
   the stored one.
   */
  lemma {:induction false} ChangeEndsEverySessionIff(now: Instant, before: seq<Move>, c: nat,
          current: string, next: string)
    requires NeverStale(Opened(now), before)
    requires var d := Play(Opened(now), before);
      CommitsChange(d, c, current, next, true) && d.s.users[d.changes[c].user].active
    ensures var d := Play(Opened(now), before);
      var u, late := d.changes[c].user, AfterLateLogin(d, c, current, next);
      (forall t: nat :: t < |late.s.issued| && late.s.issued[t].user == u ==> Dead(late.s, t))
      <==> d.changes[c].version == d.s.users[u].version
  {
    var d := Play(Opened(now), before);
    var u, late := d.changes[c].user, AfterLateLogin(d, c, current, next);
    PlayKeepsBehind(now, before);
    PlayKeepsKnown(now, before);
    LateLogin(d, u, current);
    StepKeepsTokens(d.s, Login(u, current));
    var t := |d.s.issued|;
    assert late.s.issued == Step(d.s, Login(u, current)).issued && late.s.revocations == d.s.revocations;
    assert late.s.users[u].version == OrOne(d.changes[c].version) + 1;
    assert !Burnt(late.s, t);
    assert Dead(late.s, t) <==> d.s.users[u].version <= d.changes[c].version;
  }

  // ---------------------------------------------------------------- for good

  /** The move gives the user a new password: a change that commits, whole or in halves, or a reset. */
  predicate NewPassword(d: Desk, m: Move, u: string) {
    match m
    case WriteChange(c, current, next, policyOk) =>
      CommitsChange(d, c, current, next, policyOk) && d.changes[c].user == u
    case Serve(ChangePassword(p, current, next, policyOk)) =>
      MayChange(d.s, p, current, next, policyOk) && d.s.issued[p].user == u
    case Serve(AdminReset(p, target, _)) => MayReset(d.s, p, target) && target == u
    case _ => false
  }

  lemma NewPasswordOutdates(d: Desk, m: Move, u: string)
    requires Behind(d) && NewPassword(d, m, u) && !StaleCommit(d, m)
    ensures u in d.s.users && u in Next(d, m).s.users && d.s.users[u].version < Next(d, m).s.users[u].version
  {
  }

  /**
   A new password ends every session and challenge of its user for good, however requests
   overlap, as long as no commit of a change is stale, this one included.
   */
  lemma {:induction false} NewPasswordEndsForGood(now: Instant, before: seq<Move>, m: Move, u: string,
          after: seq<Move>, t: nat)
    requires NeverStale(Opened(now), before)
    requires var d := Play(Opened(now), before);
      && NewPassword(d, m, u) && !StaleCommit(d, m) && NeverStale(Next(d, m), after)
      && t < |d.s.issued| && d.s.issued[t].user == u
    ensures var d' := Play(Next(Play(Opened(now), before), m), after);
      Authenticate(d'.s, t, true).None? && !ChallengeHolds(d'.s, t)
  {
    var d := Play(Opened(now), before);
    PlayKeepsBehind(now, before);
    NewPasswordOutdates(d, m, u);
    NextGrows(d, m);
    assert Outdated(Next(d, m).s, t);
    DeadUnlessStale(Next(d, m), after, t);
    DeadIsRefused(Play(Next(d, m), after).s, t);
  }

  lemma NextKeepsPending(d: Desk, m: Move, c: nat)
    requires c in d.open
    ensures c in Next(d, m).open && Next(d, m).open[c].user == d.open[c].user
    ensures Next(d, m).open[c].version == d.open[c].version
  {
  }

  lemma {:induction false} PendingStays(d: Desk, moves: seq<Move>, c: nat)
    requires c in d.open
    ensures var d' := Play(d, moves);
      c in d'.open && d'.open[c].user == d.open[c].user && d'.open[c].version == d.open[c].version
  {
    if moves != [] {
      PendingStays(d, moves[..|moves| - 1], c);
      NextKeepsPending(Play(d, moves[..|moves| - 1]), moves[|moves| - 1], c);
    }
  }

  /**
   A new password between the checks of an exchange or a disabling and its commit outdates the
   session before it is handed out, again as long as no commit of a change is stale.
   */
  lemma {:induction false} NewPasswordBeatsTheExchange(now: Instant, before: seq<Move>, c: nat, m: Move,
          between: seq<Move>)
    requires NeverStale(Opened(now), before)
    requires var d := Play(Opened(now), before);
      && c in d.open && NewPassword(d, m, d.open[c].user)
      && !StaleCommit(d, m) && NeverStale(Next(d, m), between)
    ensures var d := Play(Next(Play(Opened(now), before), m), between);
      Commits(d, c) ==> Dead(DoWrite(d, c, true).s, |d.s.issued|)
  {
    var d := Play(Opened(now), before);
    var late := Play(Next(d, m), between);
    PlayKeepsBehind(now, before);
    NewPasswordOutdates(d, m, d.open[c].user);
    NextKeepsPending(d, m, c);
    PendingStays(Next(d, m), between, c);
    DeadUnlessStale(Next(d, m), between, 0);
    CommitGrows(late, c, true);
    if Commits(late, c) { assert Outdated(DoWrite(late, c, true).s, |late.s.issued|); }
  }

  // ---------------------------------------------------------------- it happens

  lemma {:induction false} PlaySnoc(d: Desk, moves: seq<Move>, m: Move)
    ensures Play(d, moves + [m]) == Next(Play(d, moves), m)
  {
    assert (moves + [m])[..|moves|] == moves;
  }

  /** Two changes authenticate; the first commits, its user signs in, the second commits. */
  function TwoChanges(user: string, first: string, second: string, third: string): seq<Move> {
    BothRead(user, first) + [WriteChange(0, first, second, true)]
      + [Serve(Login(user, second))] + [WriteChange(1, second, third, true)]
  }

  function BothRead(user: string, first: string): seq<Move> {
    [] + [Serve(Register(user, first))] + [Serve(Login(user, first))] + [ReadChange(0, 0)] + [ReadChange(1, 0)]
  }

  lemma {:induction false} BothHaveRead(now: Instant, user: string, first: string)
    ensures var d := Play(Opened(now), BothRead(user, first));
      var u := User(true, 1, false, first, false, false);
      d == Desk(State(now, map[user := u], [Token(user, Expiry(now, ACCESS_TTL), 1, ByPassword)], [], [], 0),
                map[], map[0 := Change(user, 1, false, false), 1 := Change(user, 1, false, false)], [], multiset{})
  {
    var d0 := Opened(now);
    var m1, m2, m3, m4 := Serve(Register(user, first)), Serve(Login(user, first)), ReadChange(0, 0), ReadChange(1, 0);
    WholeSeconds(now, ACCESS_TTL);
    PlaySnoc(d0, [], m1);
    PlaySnoc(d0, [] + [m1], m2);
    PlaySnoc(d0, [] + [m1] + [m2], m3);
    PlaySnoc(d0, [] + [m1] + [m2] + [m3], m4);
  }

  /** The lock does not keep the version bump from being raced: a session outlives the change that should end it. */
  lemma {:induction false} OverlapKeepsASession(now: Instant, user: string, first: string, second: string,
          third: string)
    requires first != "" && second != "" && third != "" && first != second && second != third
    ensures var d := Play(Opened(now), TwoChanges(user, first, second, third));
      user in d.s.users && d.s.users[user].password == third && Authenticate(d.s, 1, false) == Some(user)
  {
    var d0 := Opened(now);
    var moves := BothRead(user, first);
    var m5, m6, m7 := WriteChange(0, first, second, true), Serve(Login(user, second)),
        WriteChange(1, second, third, true);
    BothHaveRead(now, user, first);
    WholeSeconds(now, ACCESS_TTL);
    PlaySnoc(d0, moves, m5);
    PlaySnoc(d0, moves + [m5], m6);
    PlaySnoc(d0, moves + [m5] + [m6], m7);
    var d5 := Next(Play(d0, moves), m5);
    assert d5.s.users[user] == User(true, 2, false, second, false, false);
  }

  /** With nothing in between, the two halves are the one request of module Sessions. */
  lemma UndisturbedChange(d: Desk, c: nat, t: nat, current: string, next: string, policyOk: bool)
    requires c !in d.changes
    ensures DoWriteChange(DoReadChange(d, c, t), c, current, next, policyOk).s
         == DoChangePassword(d.s, t, current, next, policyOk)
  {
  }
}
