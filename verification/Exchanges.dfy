/**
 Requests that overlap. A challenge exchange, a disabling of MFA and a password change read what
 they check, and commit later, while other requests, each other and the purge run in between.

 An exchange commits the spent recovery row together with the revocation of its challenge, and
 only then hands out the session; a refused commit raises, because the insert's rollback expires
 the user whose id is read next. A disabling deletes all recovery rows of its user, spent or not.
 A password change loads its user with the session, before the password lock, and only the
 stored password inside it.
 */
module Exchanges {
  import opened Wrappers
  import opened Sessions

  /** What a request with a second factor holds after its checks; `version` is the credential version it has read. */
  datatype Pending =
    | Exchange(challenge: nat, user: string, version: nat, recovery: Option<nat>, over: bool)
    | Disabling(user: string, version: nat, hadSecret: bool, recovery: Option<nat>, over: bool)

  /** A password change behind its authentication; `forced` says whether it read a pending forced change. */
  datatype Change = Change(user: string, version: nat, forced: bool, over: bool)

  /** `forgotten` lists the revocations purged so far, `lost` the challenges whose exchange raised after its commit. */
  datatype Desk = Desk(s: State, open: map<nat, Pending>, changes: map<nat, Change>,
                       forgotten: seq<Revocation>, lost: multiset<nat>)

  datatype Move =
    | Serve(ev: Event)
    | Read(c: nat, t: nat, code: string, totpOk: bool)
    | ReadDisable(c: nat, t: nat, code: string, totpOk: bool)
    | Write(c: nat, answers: bool)
    | Fail(c: nat)
    | ReadChange(c: nat, t: nat)
    | WriteChange(c: nat, current: string, next: string, policyOk: bool)
    | FailChange(c: nat)

  /** How many revocations name the token. */
  function Rows(rows: seq<Revocation>, t: nat): nat {
    if rows == [] then 0 else Rows(rows[..|rows| - 1], t) + if rows[|rows| - 1].jti == t then 1 else 0
  }

  /** What a purge deletes. */
  function Expired(rows: seq<Revocation>, now: Instant): seq<Revocation> {
    if rows == [] then []
    else
      var rest := Expired(rows[..|rows| - 1], now);
      if rows[|rows| - 1].expires < now then rest + [rows[|rows| - 1]] else rest
  }

  /** The update by primary key that the commit sends for a spent row. */
  function MarkUsed(codes: seq<Code>, id: nat): seq<Code> {
    seq(|codes|, i requires 0 <= i < |codes| => if codes[i].id == id then codes[i].(used := true) else codes[i])
  }

  predicate HasRow(codes: seq<Code>, id: nat) {
    exists i :: 0 <= i < |codes| && codes[i].id == id
  }

  /** The row an exchange is about to mark is still there; an update that meets no row raises. */
  predicate Holds(codes: seq<Code>, e: Pending) {
    !e.over && (e.Exchange? && e.recovery.Some? ==> HasRow(codes, e.recovery.value))
  }

  function DoRead(d: Desk, c: nat, t: nat, code: string, totpOk: bool): Desk {
    if c in d.open || !ChallengeHolds(d.s, t) then d
    else
      var u := d.s.issued[t].user;
      match SecondFactor(d.s, u, code, totpOk)
      case Denied => d
      case Granted(recovery, _) => d.(open := d.open[c := Exchange(t, u, d.s.users[u].version, recovery, false)])
  }

  function DoReadDisable(d: Desk, c: nat, t: nat, code: string, totpOk: bool): Desk {
    var u := Authenticate(d.s, t, false);
    if c in d.open || u.None? || !d.s.users[u.value].mfaEnabled then d
    else match SecondFactor(d.s, u.value, code, totpOk)
      case Denied => d
      case Granted(recovery, _) =>
        var user := d.s.users[u.value];
        d.(open := d.open[c := Disabling(u.value, user.version, user.hasSecret, recovery, false)])
  }

  predicate Commits(d: Desk, c: nat) {
    c in d.open && Holds(d.s.codes, d.open[c])
    && (d.open[c].Exchange? ==> !IsRevoked(d.s.revocations, d.open[c].challenge))
  }

  function Marked(codes: seq<Code>, recovery: Option<nat>): seq<Code> {
    if recovery.Some? then MarkUsed(codes, recovery.value) else codes
  }

  function Source(e: Pending): Origin {
    match e
    case Exchange(challenge, _, _, recovery, _) => ByChallenge(challenge, recovery)
    case Disabling(_, _, _, recovery, _) => ByDisable(recovery)
  }

  /** Columns that were loaded as they are written stay untouched, so the secret only goes if it was there. */
  function Disabled(u: User, hadSecret: bool): User {
    u.(mfaEnabled := false, hasSecret := u.hasSecret && !hadSecret)
  }

  /** What the commit stores. */
  function Stored(s: State, e: Pending): State {
    match e
    case Exchange(challenge, _, _, recovery, _) =>
      s.(codes := Marked(s.codes, recovery),
         revocations := s.revocations + [Revocation(challenge, s.now + CHALLENGE_TTL)])
    case Disabling(user, _, hadSecret, recovery, _) =>
      s.(codes := WithoutCodes(Marked(s.codes, recovery), user),
         users := if user in s.users then s.users[user := Disabled(s.users[user], hadSecret)] else s.users)
  }

  function Handed(s: State, e: Pending): Token {
    Token(e.user, Expiry(s.now, ACCESS_TTL), OrOne(e.version), Source(e))
  }

  function Written(s: State, e: Pending, answers: bool): State {
    var s' := Stored(s, e);
    if answers then s'.(issued := s.issued + [Handed(s, e)]) else s'
  }

  function Close(d: Desk, c: nat): Desk
    requires c in d.open
  {
    d.(open := d.open[c := d.open[c].(over := true)])
  }

  function DoWrite(d: Desk, c: nat, answers: bool): Desk {
    if c !in d.open then d
    else if !Commits(d, c) then Close(d, c)
    else
      var e := d.open[c];
      Close(d, c).(s := Written(d.s, e, answers),
                   lost := if answers || e.Disabling? then d.lost else d.lost + multiset{e.challenge})
  }

  function DoReadChange(d: Desk, c: nat, t: nat): Desk {
    var u := Authenticate(d.s, t, true);
    if c in d.changes || u.None? then d
    else
      var user := d.s.users[u.value];
      d.(changes := d.changes[c := Change(u.value, user.version, user.mustChange, false)])
  }

  /** The checks inside the lock see the stored password. */
  predicate CommitsChange(d: Desk, c: nat, current: string, next: string, policyOk: bool) {
    && c in d.changes && !d.changes[c].over && d.changes[c].user in d.s.users
    && current != "" && next != "" && policyOk
    && d.s.users[d.changes[c].user].password == current && d.s.users[d.changes[c].user].password != next
  }

  /** The version that was read, plus one; a forced change is cleared only by who has read it. */
  function Changed(u: User, m: Change, next: string): User {
    u.(password := next, mustChange := u.mustChange && !m.forced, version := OrOne(m.version) + 1)
  }

  function CloseChange(d: Desk, c: nat): Desk
    requires c in d.changes
  {
    d.(changes := d.changes[c := d.changes[c].(over := true)])
  }

  function DoWriteChange(d: Desk, c: nat, current: string, next: string, policyOk: bool): Desk {
    if c !in d.changes then d
    else if !CommitsChange(d, c, current, next, policyOk) then CloseChange(d, c)
    else
      var m := d.changes[c];
      CloseChange(d, c).(s := SetUser(d.s, m.user, Changed(d.s.users[m.user], m, next)))
  }

  function Next(d: Desk, m: Move): Desk {
    match m
    case Serve(ev) =>
      d.(s := Step(d.s, ev),
         forgotten := if ev.Purge? then d.forgotten + Expired(d.s.revocations, d.s.now) else d.forgotten)
    case Read(c, t, code, totpOk) => DoRead(d, c, t, code, totpOk)
    case ReadDisable(c, t, code, totpOk) => DoReadDisable(d, c, t, code, totpOk)
    case Write(c, answers) => DoWrite(d, c, answers)
    case Fail(c) => if c in d.open then Close(d, c) else d
    case ReadChange(c, t) => DoReadChange(d, c, t)
    case WriteChange(c, current, next, policyOk) => DoWriteChange(d, c, current, next, policyOk)
    case FailChange(c) => if c in d.changes then CloseChange(d, c) else d
  }

  function Play(d: Desk, moves: seq<Move>): Desk {
    if moves == [] then d else Next(Play(d, moves[..|moves| - 1]), moves[|moves| - 1])
  }

  function Opened(now: Instant): Desk {
    Desk(Start(now), map[], map[], [], multiset{})
  }

  /** How many sessions were issued on a credential. */
  ghost function Count(issued: seq<Token>, k: Credential): nat {
    if issued == [] then 0
    else Count(issued[..|issued| - 1], k) + if Uses(issued[|issued| - 1].origin, k) then 1 else 0
  }

  // ---------------------------------------------------------------- what every move keeps

  ghost predicate OpenSound(s: State, e: Pending) {
    && e.user in s.users
    && (e.Exchange? ==> e.challenge < |s.issued| && s.issued[e.challenge].origin.Challenge?)
    && (e.recovery.Some? ==> e.recovery.value < s.nextCode)
  }

  ghost predicate Inv(d: Desk) {
    && TokensKnown(d.s) && CodesOwned(d.s.codes, d.s.nextCode) && SpentIsConsumed(d.s)
    && (forall c :: c in d.open ==> OpenSound(d.s, d.open[c]))
    && (forall c :: c in d.changes ==> d.changes[c].user in d.s.users)
  }

  lemma MarkedSpends(codes: seq<Code>, recovery: Option<nat>, id: nat, next: nat)
    requires CodesOwned(codes, next)
    requires NotFresh(codes, id) || recovery == Some(id)
    ensures NotFresh(Marked(codes, recovery), id) && CodesOwned(Marked(codes, recovery), next)
  {
  }

  /** Deleting rows refreshes none. */
  lemma {:induction false} DeletionSpends(codes: seq<Code>, user: string, id: nat, next: nat)
    requires CodesOwned(codes, next)
    ensures CodesOwned(WithoutCodes(codes, user), next)
    ensures NotFresh(codes, id) ==> NotFresh(WithoutCodes(codes, user), id)
  {
    DeletionShrinks(codes, user);
    ShrinkKeepsOwned(codes, WithoutCodes(codes, user), next);
    if NotFresh(codes, id) { ShrinkKeepsNotFresh(codes, WithoutCodes(codes, user), id); }
  }

  lemma StoredCodes(s: State, e: Pending, id: nat)
    requires CodesOwned(s.codes, s.nextCode)
    ensures CodesOwned(Stored(s, e).codes, s.nextCode)
    ensures NotFresh(s.codes, id) || e.recovery == Some(id) ==> NotFresh(Stored(s, e).codes, id)
  {
    var r := if e.recovery.Some? then e.recovery.value else id;
    if e.recovery.Some? { MarkedSpends(s.codes, e.recovery, e.recovery.value, s.nextCode); }
    if NotFresh(s.codes, id) { MarkedSpends(s.codes, e.recovery, id, s.nextCode); }
    if e.Disabling? { DeletionSpends(Marked(s.codes, e.recovery), e.user, id, s.nextCode); }
  }

  /** A commit keeps what was consumed and consumes the credentials it spends. */
  lemma CommitConsumes(s: State, e: Pending, answers: bool, k: Credential)
    requires TokensKnown(s) && CodesOwned(s.codes, s.nextCode) && OpenSound(s, e)
    requires Consumed(s, k) || Uses(Source(e), k)
    ensures Consumed(Written(s, e, answers), k)
  {
    var s' := Written(s, e, answers);
    match k {
      case OfChallenge(t) =>
        if Burnt(s, t) && RevokedPast(s.revocations, t, s.issued[t].exp) {
          var i :| 0 <= i < |s.revocations| && s.revocations[i].jti == t && s.revocations[i].expires >= s.issued[t].exp;
          assert s'.revocations[i] == s.revocations[i];
        }
        if e.Exchange? && t == e.challenge { assert s'.revocations[|s.revocations|].jti == t; }
      case OfCode(id) => StoredCodes(s, e, id);
    }
  }

  lemma CommitKeepsInv(d: Desk, c: nat, answers: bool)
    requires Inv(d) && Commits(d, c)
    ensures Inv(DoWrite(d, c, answers))
  {
    var d' := DoWrite(d, c, answers);
    var e := d.open[c];
    StoredCodes(d.s, e, 0);
    forall t, k | 0 <= t < |d'.s.issued| && Uses(d'.s.issued[t].origin, k)
      ensures Consumed(d'.s, k)
    {
      if t < |d.s.issued| { assert Uses(d.s.issued[t].origin, k); }
      CommitConsumes(d.s, e, answers, k);
    }
  }

  /** A password change leaves tokens, codes and revocations alone. */
  lemma ChangeKeepsInv(d: Desk, c: nat, current: string, next: string, policyOk: bool)
    requires Inv(d)
    ensures Inv(DoWriteChange(d, c, current, next, policyOk))
  {
    var s' := DoWriteChange(d, c, current, next, policyOk).s;
    forall t, k | 0 <= t < |s'.issued| && Uses(s'.issued[t].origin, k)
      ensures Consumed(s', k)
    {
      assert Uses(d.s.issued[t].origin, k);
      UsersConsumeNothing(d.s, s', k);
    }
  }

  lemma UsersConsumeNothing(s: State, s': State, k: Credential)
    requires s' == s.(users := s'.users)
    ensures Consumed(s', k) <==> Consumed(s, k)
  {
  }

  lemma ServeKeepsInv(d: Desk, ev: Event)
    requires Inv(d)
    ensures Inv(Next(d, Serve(ev)))
  {
    StepKeepsTokens(d.s, ev);
    StepKeepsCodes(d.s, ev);
    StepKeepsSpent(d.s, ev);
    StepGrows(d.s, ev);
    OneTokenAtMost(d.s, ev);
  }

  lemma ReadKeepsInv(d: Desk, c: nat, t: nat, code: string, totpOk: bool)
    requires Inv(d)
    ensures Inv(DoRead(d, c, t, code, totpOk))
  {
    if ChallengeHolds(d.s, t) { FactorSpends(d.s, d.s.issued[t].user, code, totpOk); }
  }

  lemma ReadDisableKeepsInv(d: Desk, c: nat, t: nat, code: string, totpOk: bool)
    requires Inv(d)
    ensures Inv(DoReadDisable(d, c, t, code, totpOk))
  {
    if Authenticate(d.s, t, false).Some? { FactorSpends(d.s, d.s.issued[t].user, code, totpOk); }
  }

  lemma NextKeepsInv(d: Desk, m: Move)
    requires Inv(d)
    ensures Inv(Next(d, m))
  {
    match m {
      case Serve(ev) => ServeKeepsInv(d, ev);
      case Read(c, t, code, totpOk) => ReadKeepsInv(d, c, t, code, totpOk);
      case ReadDisable(c, t, code, totpOk) => ReadDisableKeepsInv(d, c, t, code, totpOk);
      case Write(c, answers) => if Commits(d, c) { CommitKeepsInv(d, c, answers); }
      case WriteChange(c, current, next, policyOk) => ChangeKeepsInv(d, c, current, next, policyOk);
      case _ =>
    }
  }

  lemma {:induction false} PlayKeepsInv(d: Desk, moves: seq<Move>)
    requires Inv(d)
    ensures Inv(Play(d, moves))
  {
    if moves != [] {
      PlayKeepsInv(d, moves[..|moves| - 1]);
      NextKeepsInv(Play(d, moves[..|moves| - 1]), moves[|moves| - 1]);
    }
  }

  // ---------------------------------------------------------------- how many sessions a challenge yields

  lemma {:induction false} CountSnoc(issued: seq<Token>, token: Token, k: Credential)
    ensures Count(issued + [token], k) == Count(issued, k) + if Uses(token.origin, k) then 1 else 0
  {
    assert (issued + [token])[..|issued|] == issued;
  }

  lemma {:induction false} RowsSnoc(rows: seq<Revocation>, r: Revocation, t: nat)
    ensures Rows(rows + [r], t) == Rows(rows, t) + if r.jti == t then 1 else 0
  {
    assert (rows + [r])[..|rows|] == rows;
  }

  lemma {:induction false} RowsOfRevoked(rows: seq<Revocation>, t: nat)
    ensures Rows(rows, t) > 0 <==> IsRevoked(rows, t)
  {
    if rows != [] {
      var n := |rows| - 1;
      RowsOfRevoked(rows[..n], t);
      if IsRevoked(rows[..n], t) {
        var i :| 0 <= i < n && rows[..n][i].jti == t;
        assert rows[i].jti == t;
      }
      if IsRevoked(rows, t) && rows[n].jti != t {
        var i :| 0 <= i < |rows| && rows[i].jti == t;
        assert rows[..n][i].jti == t;
      }
    }
  }

  lemma {:induction false} RowsConcat(a: seq<Revocation>, b: seq<Revocation>, t: nat)
    ensures Rows(a + b, t) == Rows(a, t) + Rows(b, t)
  {
    if b == [] {
      assert a + b == a;
    } else {
      RowsConcat(a, b[..|b| - 1], t);
      assert a + b == (a + b[..|b| - 1]) + [b[|b| - 1]];
      RowsSnoc(a + b[..|b| - 1], b[|b| - 1], t);
    }
  }

  lemma {:induction false} PurgeSplits(rows: seq<Revocation>, now: Instant, t: nat)
    ensures Rows(rows, t) == Rows(PurgeExpired(rows, now), t) + Rows(Expired(rows, now), t)
  {
    if rows != [] {
      var n := |rows| - 1;
      PurgeSplits(rows[..n], now, t);
      RowsSnoc(PurgeExpired(rows[..n], now), rows[n], t);
      RowsSnoc(Expired(rows[..n], now), rows[n], t);
    }
  }

  predicate NoSession(issued: seq<Token>, t: nat) {
    t < |issued| ==> issued[t].origin.Challenge?
  }

  /** Sessions and losses of a challenge pair off with its revocations, stored or purged. */
  ghost predicate Balanced(d: Desk, t: nat) {
    && Rows(d.s.revocations, t) <= 1
    && (NoSession(d.s.issued, t) ==>
          Count(d.s.issued, OfChallenge(t)) + d.lost[t] == Rows(d.s.revocations, t) + Rows(d.forgotten, t))
  }

  lemma {:induction false} RevokeCounts(rows: seq<Revocation>, u: nat, exp: Instant, t: nat)
    requires Rows(rows, t) <= 1
    ensures var rows' := RevokeToken(rows, u, exp);
      && Rows(rows', t) <= 1
      && Rows(rows', t) == Rows(rows, t) + if u == t && !IsRevoked(rows, u) then 1 else 0
  {
    RowsOfRevoked(rows, t);
    RowsSnoc(rows, Revocation(u, exp), t);
  }

  /** A request that is no exchange adds no session to a challenge. */
  lemma OthersIssueNothing(s: State, ev: Event, t: nat)
    requires !ev.MfaVerify?
    ensures Count(Step(s, ev).issued, OfChallenge(t)) == Count(s.issued, OfChallenge(t))
  {
    var s' := Step(s, ev);
    OneTokenAtMost(s, ev);
    if |s.issued| < |s'.issued| {
      NewIsNoExchange(s, ev);
      assert s'.issued == s.issued + [s'.issued[|s.issued|]];
      CountSnoc(s.issued, s'.issued[|s.issued|], OfChallenge(t));
    }
  }

  lemma NewIsNoExchange(s: State, ev: Event)
    requires !ev.MfaVerify? && |s.issued| < |Step(s, ev).issued|
    ensures !Step(s, ev).issued[|s.issued|].origin.ByChallenge?
  {
  }

  lemma OthersRevokeNothing(s: State, ev: Event)
    requires !ev.MfaVerify? && !ev.Logout? && !ev.Purge?
    ensures Step(s, ev).revocations == s.revocations
  {
  }

  lemma VerifyKeepsBalance(d: Desk, u: nat, code: string, totpOk: bool, t: nat)
    requires Balanced(d, t)
    ensures Balanced(d.(s := DoMfaVerify(d.s, u, code, totpOk)), t)
  {
    var s' := DoMfaVerify(d.s, u, code, totpOk);
    if s' != d.s {
      RevokeCounts(d.s.revocations, u, d.s.now + CHALLENGE_TTL, t);
      CountSnoc(d.s.issued, s'.issued[|d.s.issued|], OfChallenge(t));
    }
  }

  lemma LogoutKeepsBalance(d: Desk, u: nat, t: nat)
    requires Balanced(d, t)
    ensures Balanced(d.(s := DoLogout(d.s, u)), t)
  {
    if DoLogout(d.s, u) != d.s { RevokeCounts(d.s.revocations, u, d.s.issued[u].exp, t); }
  }

  lemma PurgeKeepsBalance(d: Desk, t: nat)
    requires Balanced(d, t)
    ensures Balanced(Next(d, Serve(Purge)), t)
  {
    PurgeSplits(d.s.revocations, d.s.now, t);
    RowsConcat(d.forgotten, Expired(d.s.revocations, d.s.now), t);
  }

  lemma BalanceCarries(d: Desk, s': State, t: nat)
    requires Balanced(d, t)
    requires s'.revocations == d.s.revocations && d.s.issued <= s'.issued
    requires Count(s'.issued, OfChallenge(t)) == Count(d.s.issued, OfChallenge(t))
    ensures Balanced(d.(s := s'), t)
  {
  }

  lemma OthersKeepBalance(d: Desk, ev: Event, t: nat)
    requires Balanced(d, t) && !ev.MfaVerify? && !ev.Logout? && !ev.Purge?
    ensures Balanced(d.(s := Step(d.s, ev)), t)
  {
    OthersIssueNothing(d.s, ev, t);
    OthersRevokeNothing(d.s, ev);
    OneTokenAtMost(d.s, ev);
    BalanceCarries(d, Step(d.s, ev), t);
  }

  lemma {:induction false} WrittenCounts(s: State, e: Pending, answers: bool, t: nat)
    ensures var s', mine := Written(s, e, answers), e.Exchange? && e.challenge == t;
      && Rows(s'.revocations, t) == Rows(s.revocations, t) + (if mine then 1 else 0)
      && Count(s'.issued, OfChallenge(t)) == Count(s.issued, OfChallenge(t)) + (if answers && mine then 1 else 0)
      && s.issued <= s'.issued
  {
    if e.Exchange? { RowsSnoc(s.revocations, Revocation(e.challenge, s.now + CHALLENGE_TTL), t); }
    if answers { CountSnoc(s.issued, Handed(s, e), OfChallenge(t)); }
  }

  lemma CommitKeepsBalance(d: Desk, c: nat, answers: bool, t: nat)
    requires Balanced(d, t) && Commits(d, c)
    ensures Balanced(DoWrite(d, c, answers), t)
  {
    RowsOfRevoked(d.s.revocations, t);
    WrittenCounts(d.s, d.open[c], answers, t);
  }

  lemma NextKeepsBalance(d: Desk, m: Move, t: nat)
    requires Balanced(d, t)
    ensures Balanced(Next(d, m), t)
  {
    match m {
      case Serve(ev) =>
        match ev {
          case MfaVerify(u, code, totpOk) => VerifyKeepsBalance(d, u, code, totpOk, t);
          case Logout(u) => LogoutKeepsBalance(d, u, t);
          case Purge => PurgeKeepsBalance(d, t);
          case _ => OthersKeepBalance(d, ev, t);
        }
      case Write(c, answers) => if Commits(d, c) { CommitKeepsBalance(d, c, answers, t); }
      case _ =>
    }
  }

  /**
   Over any interleaving of exchanges, requests and purges, the sessions a challenge has
   yielded and the exchanges of it that raised after their commit are as many as its
   revocations, of which at most one is stored; all others were purged. As long as no
   revocation of the challenge was purged it yields one session at most.
   */
  lemma {:induction false} SessionsPerChallenge(now: Instant, moves: seq<Move>, t: nat)
    ensures Balanced(Play(Opened(now), moves), t)
    ensures var d := Play(Opened(now), moves);
      NoSession(d.s.issued, t) && Rows(d.forgotten, t) == 0 ==> Count(d.s.issued, OfChallenge(t)) <= 1
  {
    if moves != [] {
      SessionsPerChallenge(now, moves[..|moves| - 1], t);
      NextKeepsBalance(Play(Opened(now), moves[..|moves| - 1]), moves[|moves| - 1], t);
    }
  }

  // ---------------------------------------------------------------- when a credential is used again

  /** Some exchange still holds the credential and can still commit. */
  ghost predicate Held(d: Desk, k: Credential) {
    exists c :: c in d.open && Holds(d.s.codes, d.open[c])
                && Uses(Source(d.open[c]), k)
  }

  lemma {:induction false} CountedIsUsed(issued: seq<Token>, k: Credential)
    ensures Count(issued, k) > 0 <==> exists t :: 0 <= t < |issued| && Uses(issued[t].origin, k)
  {
    if issued != [] {
      var n := |issued| - 1;
      CountedIsUsed(issued[..n], k);
      if Count(issued[..n], k) > 0 {
        var t :| 0 <= t < n && Uses(issued[..n][t].origin, k);
        assert Uses(issued[t].origin, k);
      }
      if t :| 0 <= t < n && Uses(issued[t].origin, k) { assert Uses(issued[..n][t].origin, k); }
    }
  }

  lemma ShrinkKeepsGone(before: seq<Code>, after: seq<Code>, id: nat)
    requires Shrinks(before, after) && HasRow(after, id)
    ensures HasRow(before, id)
  {
  }

  lemma GoneAfterReplace(s: State, user: string, texts: seq<string>, id: nat)
    requires CodesOwned(s.codes, s.nextCode) && id < s.nextCode && HasRow(ReplaceCodes(s, user, texts).codes, id)
    ensures HasRow(s.codes, id)
  {
    var kept, all := WithoutCodes(s.codes, user), ReplaceCodes(s, user, texts).codes;
    var i :| 0 <= i < |all| && all[i].id == id;
    assert kept[i].id == id;
    DeletionShrinks(s.codes, user);
    ShrinkKeepsGone(s.codes, kept, id);
  }

  lemma GoneAfterFactor(s: State, user: string, code: string, totpOk: bool, id: nat)
    requires user in s.users && SecondFactor(s, user, code, totpOk).Granted?
    requires HasRow(SecondFactor(s, user, code, totpOk).codes, id)
    ensures HasRow(s.codes, id)
  {
    var codes := SecondFactor(s, user, code, totpOk).codes;
    var i :| 0 <= i < |codes| && codes[i].id == id;
    assert s.codes[i].id == id;
  }

  lemma GoneAfterDisable(s: State, t: nat, code: string, totpOk: bool, id: nat)
    requires CodesOwned(s.codes, s.nextCode) && DoMfaDisable(s, t, code, totpOk) != s
    requires HasRow(DoMfaDisable(s, t, code, totpOk).codes, id)
    ensures HasRow(s.codes, id)
  {
    var u := s.issued[t].user;
    var codes := SecondFactor(s, u, code, totpOk).codes;
    FactorSpends(s, u, code, totpOk);
    DeletionShrinks(codes, u);
    ShrinkKeepsGone(codes, WithoutCodes(codes, u), id);
    GoneAfterFactor(s, u, code, totpOk, id);
  }

  /** A deleted row's id never returns. */
  lemma GoneRowsStayGone(s: State, ev: Event, id: nat)
    requires CodesOwned(s.codes, s.nextCode) && id < s.nextCode && HasRow(Step(s, ev).codes, id)
    ensures HasRow(s.codes, id)
  {
    if Step(s, ev).codes != s.codes {
      match ev {
        case MfaConfirm(t, totpOk, texts) => GoneAfterReplace(s, s.issued[t].user, texts, id);
        case Regenerate(t, password, texts) => GoneAfterReplace(s, s.issued[t].user, texts, id);
        case MfaVerify(t, code, totpOk) => GoneAfterFactor(s, s.issued[t].user, code, totpOk, id);
        case MfaDisable(t, code, totpOk) => GoneAfterDisable(s, t, code, totpOk, id);
      }
    }
  }

  lemma {:induction false} ServeUsesNothing(d: Desk, ev: Event, k: Credential)
    requires Inv(d) && Consumed(d.s, k)
    ensures Consumed(Step(d.s, ev), k) && Count(Step(d.s, ev).issued, k) == Count(d.s.issued, k)
  {
    var s, s' := d.s, Step(d.s, ev);
    ConsumedStays(s, ev, k);
    OneTokenAtMost(s, ev);
    if |s.issued| < |s'.issued| {
      assert s'.issued == s.issued + [s'.issued[|s.issued|]];
      CountSnoc(s.issued, s'.issued[|s.issued|], k);
      if Uses(s'.issued[|s.issued|].origin, k) { NewSessionConsumes(s, ev, k); }
    }
  }

  lemma ServeHoldsNothing(d: Desk, ev: Event, k: Credential)
    requires Inv(d) && !Held(d, k)
    ensures !Held(Next(d, Serve(ev)), k)
  {
    var codes' := Step(d.s, ev).codes;
    forall c | c in d.open && Holds(codes', d.open[c])
      ensures Holds(d.s.codes, d.open[c])
    {
      if d.open[c].Exchange? && d.open[c].recovery.Some? { GoneRowsStayGone(d.s, ev, d.open[c].recovery.value); }
    }
  }

  lemma ReadUsesNothing(d: Desk, c: nat, t: nat, code: string, totpOk: bool, k: Credential)
    requires Inv(d) && Consumed(d.s, k) && !Held(d, k)
    ensures !Held(DoRead(d, c, t, code, totpOk), k)
  {
    if DoRead(d, c, t, code, totpOk) != d {
      FactorSpends(d.s, d.s.issued[t].user, code, totpOk);
      if Dead(d.s, t) { DeadIsRefused(d.s, t); }
    }
  }

  lemma ReadDisableUsesNothing(d: Desk, c: nat, t: nat, code: string, totpOk: bool, k: Credential)
    requires Inv(d) && Consumed(d.s, k) && !Held(d, k)
    ensures !Held(DoReadDisable(d, c, t, code, totpOk), k)
  {
    if DoReadDisable(d, c, t, code, totpOk) != d { FactorSpends(d.s, d.s.issued[t].user, code, totpOk); }
  }

  lemma {:induction false} NextUsesNothing(d: Desk, m: Move, k: Credential)
    requires Inv(d) && Consumed(d.s, k) && !Held(d, k)
    ensures var d' := Next(d, m);
      Consumed(d'.s, k) && !Held(d', k) && Count(d'.s.issued, k) == Count(d.s.issued, k)
  {
    match m {
      case Serve(ev) =>
        ServeUsesNothing(d, ev, k);
        ServeHoldsNothing(d, ev, k);
      case Read(c, t, code, totpOk) => ReadUsesNothing(d, c, t, code, totpOk, k);
      case ReadDisable(c, t, code, totpOk) => ReadDisableUsesNothing(d, c, t, code, totpOk, k);
      case Write(c, answers) => if Commits(d, c) { CommitUsesNothing(d, c, answers, k); }
      case WriteChange(c, current, next, policyOk) =>
        UsersConsumeNothing(d.s, DoWriteChange(d, c, current, next, policyOk).s, k);
      case _ =>
    }
  }

  lemma GoneAfterMark(codes: seq<Code>, recovery: Option<nat>, id: nat)
    requires HasRow(Marked(codes, recovery), id)
    ensures HasRow(codes, id)
  {
    var i :| 0 <= i < |codes| && Marked(codes, recovery)[i].id == id;
    assert codes[i].id == id;
  }

  lemma GoneAfterCommit(s: State, e: Pending, id: nat)
    requires CodesOwned(s.codes, s.nextCode) && HasRow(Stored(s, e).codes, id)
    ensures HasRow(s.codes, id)
  {
    var marked := Marked(s.codes, e.recovery);
    if e.Disabling? {
      MarkedOwned(s, e);
      DeletionShrinks(marked, e.user);
      ShrinkKeepsGone(marked, WithoutCodes(marked, e.user), id);
    }
    GoneAfterMark(s.codes, e.recovery, id);
  }

  lemma MarkedOwned(s: State, e: Pending)
    requires CodesOwned(s.codes, s.nextCode)
    ensures CodesOwned(Marked(s.codes, e.recovery), s.nextCode)
  {
    if e.recovery.Some? { MarkedSpends(s.codes, e.recovery, e.recovery.value, s.nextCode); }
  }

  lemma {:induction false} CommitUsesNothing(d: Desk, c: nat, answers: bool, k: Credential)
    requires Inv(d) && Consumed(d.s, k) && !Held(d, k) && Commits(d, c)
    ensures var d' := DoWrite(d, c, answers);
      Consumed(d'.s, k) && !Held(d', k) && Count(d'.s.issued, k) == Count(d.s.issued, k)
  {
    var e, d' := d.open[c], DoWrite(d, c, answers);
    CommitConsumes(d.s, e, answers, k);
    if answers { CountSnoc(d.s.issued, Handed(d.s, e), k); }
    forall o | o in d'.open && Holds(d'.s.codes, d'.open[o])
      ensures Holds(d.s.codes, d.open[o]) && d'.open[o] == d.open[o]
    {
      if d.open[o].recovery.Some? && HasRow(d'.s.codes, d.open[o].recovery.value) {
        GoneAfterCommit(d.s, e, d.open[o].recovery.value);
      }
    }
  }

  lemma {:induction false} PlayUsesNothing(d: Desk, moves: seq<Move>, k: Credential)
    requires Inv(d) && Consumed(d.s, k) && !Held(d, k)
    ensures var d' := Play(d, moves);
      Consumed(d'.s, k) && !Held(d', k) && Count(d'.s.issued, k) == Count(d.s.issued, k)
  {
    if moves != [] {
      PlayUsesNothing(d, moves[..|moves| - 1], k);
      PlayKeepsInv(d, moves[..|moves| - 1]);
      NextUsesNothing(Play(d, moves[..|moves| - 1]), moves[|moves| - 1], k);
    }
  }

  function Latest(rows: seq<Revocation>): Instant {
    if rows == [] then 0
    else
      var rest := Latest(rows[..|rows| - 1]);
      if rows[|rows| - 1].expires > rest then rows[|rows| - 1].expires else rest
  }

  lemma {:induction false} LatestBounds(rows: seq<Revocation>)
    ensures forall r :: r in rows ==> r.expires <= Latest(rows)
  {
    if rows != [] {
      LatestBounds(rows[..|rows| - 1]);
      assert rows == rows[..|rows| - 1] + [rows[|rows| - 1]];
    }
  }

  /** The exchange waits until every revocation has expired and was purged. */
  function Outwaiting(s: State, c: nat): seq<Move> {
    var d := Latest(s.revocations) + 1 - s.now;
    [Serve(Tick(if d > 0 then d else 0)), Serve(Purge), Write(c, true)]
  }

  lemma {:induction false} PlayThree(d: Desk, a: Move, b: Move, c: Move)
    ensures Play(d, [a, b, c]) == Next(Next(Next(d, a), b), c)
  {
    assert [a, b, c][..2] == [a, b] && [a, b][..1] == [a] && [a][..0] == [];
    assert Play(d, [a]) == Next(Play(d, []), a);
  }

  lemma {:induction false} PurgedInTheEnd(rows: seq<Revocation>, now: Instant)
    requires now > Latest(rows)
    ensures PurgeExpired(rows, now) == []
  {
    LatestBounds(rows);
    if PurgeExpired(rows, now) != [] { PurgeMembers(rows, now, PurgeExpired(rows, now)[0]); }
  }

  /** Waiting and purging empties the revocations and changes nothing else that an exchange needs. */
  lemma {:induction false} Outwaited(d: Desk, c: nat)
    ensures var moves := Outwaiting(d.s, c);
      var purged := Next(Next(d, moves[0]), moves[1]);
      && purged.s.revocations == [] && purged.s.issued == d.s.issued && purged.s.codes == d.s.codes
      && purged.open == d.open
  {
    var late := Next(d, Outwaiting(d.s, c)[0]);
    PurgedInTheEnd(late.s.revocations, late.s.now);
  }

  lemma {:induction false} HeldIsHandedOut(d: Desk, c: nat, k: Credential)
    requires Commits(d, c) && Uses(Source(d.open[c]), k)
    ensures Count(DoWrite(d, c, true).s.issued, k) == Count(d.s.issued, k) + 1
  {
    CountSnoc(d.s.issued, Handed(d.s, d.open[c]), k);
  }

  lemma {:induction false} OutwaitedExchangeIsServed(d: Desk, c: nat, k: Credential)
    requires c in d.open && Holds(d.s.codes, d.open[c]) && Uses(Source(d.open[c]), k)
    ensures Count(Play(d, Outwaiting(d.s, c)).s.issued, k) == Count(d.s.issued, k) + 1
  {
    var moves := Outwaiting(d.s, c);
    Outwaited(d, c);
    PlayThree(d, moves[0], moves[1], moves[2]);
    HeldIsHandedOut(Next(Next(d, moves[0]), moves[1]), c, k);
  }

  /**
   Once a challenge or a recovery row has led to a session, it leads to a further one in some
   continuation exactly when a request that has passed its checks still holds it: a disabling
   of MFA, or an exchange, provided the recovery row that the exchange is to mark, if any, is
   still there.
   */
  lemma {:induction false} FurtherSessionIff(now: Instant, before: seq<Move>, k: Credential)
    requires Count(Play(Opened(now), before).s.issued, k) > 0
    ensures var d := Play(Opened(now), before);
      Held(d, k) <==> exists after :: Count(Play(d, after).s.issued, k) > Count(d.s.issued, k)
  {
    var d := Play(Opened(now), before);
    PlayKeepsInv(Opened(now), before);
    CountedIsUsed(d.s.issued, k);
    if Held(d, k) {
      var c :| c in d.open && Holds(d.s.codes, d.open[c])
               && Uses(Source(d.open[c]), k);
      OutwaitedExchangeIsServed(d, c, k);
    } else {
      forall after
        ensures Count(Play(d, after).s.issued, k) == Count(d.s.issued, k)
      {
        PlayUsesNothing(d, after, k);
      }
    }
  }

  // ---------------------------------------------------------------- undisturbed

  /** With nothing in between, the two halves are the one request of module Sessions. */
  lemma UndisturbedExchange(d: Desk, c: nat, t: nat, code: string, totpOk: bool)
    requires CodesOwned(d.s.codes, d.s.nextCode) && c !in d.open
    ensures DoWrite(DoRead(d, c, t, code, totpOk), c, true).s == DoMfaVerify(d.s, t, code, totpOk)
  {
    if ChallengeHolds(d.s, t) {
      var u := d.s.issued[t].user;
      var f := SecondFactor(d.s, u, code, totpOk);
      CodeFound(d.s.codes, u, code);
      if f.Granted? && f.recovery.Some? {
        assert HasRow(d.s.codes, f.recovery.value);
        assert MarkUsed(d.s.codes, f.recovery.value) == f.codes;
      }
    }
  }

  lemma UndisturbedDisabling(d: Desk, c: nat, t: nat, code: string, totpOk: bool)
    requires CodesOwned(d.s.codes, d.s.nextCode) && c !in d.open
    ensures DoWrite(DoReadDisable(d, c, t, code, totpOk), c, true).s == DoMfaDisable(d.s, t, code, totpOk)
  {
    var user := Authenticate(d.s, t, false);
    if user.Some? && d.s.users[user.value].mfaEnabled {
      var f := SecondFactor(d.s, user.value, code, totpOk);
      CodeFound(d.s.codes, user.value, code);
      if f.Granted? && f.recovery.Some? { assert MarkUsed(d.s.codes, f.recovery.value) == f.codes; }
    }
  }
}
