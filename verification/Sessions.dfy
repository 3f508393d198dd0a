/**
 Tokens over whole runs: login and MFA challenges issue them, logout and challenge use revoke
 them, password changes outdate them, time ends them, and a purge forgets old revocations.

 One event is one request. A token is named by the position at which it was issued, and only
 issued tokens can be presented. Password and TOTP checks are deterministic comparisons.
 */
module Sessions {
  import opened Wrappers

  /** Microseconds. */
  type Instant = int

  const SECOND: int := 1_000_000
  const ACCESS_TTL: int := 20 * 60 * SECOND
  const CHALLENGE_TTL: int := 5 * 60 * SECOND

  datatype User = User(active: bool, version: nat, mustChange: bool, password: string, mfaEnabled: bool,
      hasSecret: bool)

  /** How a token came about; `recovery` is the recovery code row that was spent for it. */
  datatype Origin =
    | Challenge
    | ByPassword
    | ByChallenge(challenge: nat, recovery: Option<nat>)
    | ByDisable(recovery: Option<nat>)

  datatype Token = Token(user: string, exp: Instant, cver: nat, origin: Origin)

  datatype Revocation = Revocation(jti: nat, expires: Instant)

  datatype Code = Code(id: nat, user: string, text: string, used: bool)

  datatype State = State(now: Instant, users: map<string, User>, issued: seq<Token>, revocations: seq<Revocation>,
                         codes: seq<Code>, nextCode: nat)

  datatype Event =
    | Tick(d: nat)
    | Register(user: string, password: string)
    | SetActive(user: string, active: bool)
    | Login(user: string, password: string)
    | Logout(t: nat)
    | MfaSetup(t: nat)
    | MfaConfirm(t: nat, totpOk: bool, texts: seq<string>)
    | MfaVerify(t: nat, code: string, totpOk: bool)
    | MfaDisable(t: nat, code: string, totpOk: bool)
    | Regenerate(t: nat, password: string, texts: seq<string>)
    | ChangePassword(t: nat, current: string, next: string, policyOk: bool)
    | AdminReset(t: nat, target: string, temporary: string)
    | Purge

  // ---------------------------------------------------------------- tokens

  /** `version or 1`. */
  function OrOne(v: nat): nat {
    if v == 0 then 1 else v
  }

  /** The `exp` claim holds whole seconds. */
  function Expiry(now: Instant, ttl: int): Instant {
    (now + ttl) / SECOND * SECOND
  }

  function Issue(s: State, user: string, ttl: int, origin: Origin): State
    requires user in s.users
  {
    s.(issued := s.issued + [Token(user, Expiry(s.now, ttl), OrOne(s.users[user].version), origin)])
  }

  predicate IsRevoked(rows: seq<Revocation>, t: nat) {
    exists i :: 0 <= i < |rows| && rows[i].jti == t
  }

  /** The unique key on the token id makes a second revocation a no-op. */
  function RevokeToken(rows: seq<Revocation>, t: nat, expires: Instant): seq<Revocation> {
    if IsRevoked(rows, t) then rows else rows + [Revocation(t, expires)]
  }

  function PurgeExpired(rows: seq<Revocation>, now: Instant): seq<Revocation> {
    if rows == [] then []
    else
      var rest := PurgeExpired(rows[..|rows| - 1], now);
      if rows[|rows| - 1].expires < now then rest else rest + [rows[|rows| - 1]]
  }

  /** What every reader of a token checks first. */
  predicate Decodes(s: State, t: nat) {
    t < |s.issued| && s.now < s.issued[t].exp
  }

  /** `get_current_user`: the user a session token stands for now. */
  function Authenticate(s: State, t: nat, allowPending: bool): Option<string> {
    if !Decodes(s, t) || s.issued[t].origin.Challenge? || IsRevoked(s.revocations, t) then None
    else
      var u := s.issued[t].user;
      if u !in s.users || !s.users[u].active || s.issued[t].cver != s.users[u].version
         || (s.users[u].mustChange && !allowPending) then None
      else Some(u)
  }

  // ---------------------------------------------------------------- recovery codes

  datatype CodeLookup = Missing | At(k: nat) | Ambiguous

  /** The user's unused row with this text; two of them would make the query raise. */
  function FindCode(codes: seq<Code>, user: string, text: string): CodeLookup {
    if codes == [] then Missing
    else
      var n := |codes| - 1;
      var rest := FindCode(codes[..n], user, text);
      if codes[n].user != user || codes[n].text != text || codes[n].used then rest
      else if rest.Missing? then At(n) else Ambiguous
  }

  function WithoutCodes(codes: seq<Code>, user: string): seq<Code> {
    if codes == [] then []
    else
      var rest := WithoutCodes(codes[..|codes| - 1], user);
      if codes[|codes| - 1].user == user then rest else rest + [codes[|codes| - 1]]
  }

  function NewCodes(user: string, texts: seq<string>, next: nat): seq<Code> {
    seq(|texts|, i requires 0 <= i < |texts| => Code(next + i, user, texts[i], false))
  }

  predicate DistinctTexts(texts: seq<string>) {
    forall i, j :: 0 <= i < j < |texts| ==> texts[i] != texts[j]
  }

  function ReplaceCodes(s: State, user: string, texts: seq<string>): State {
    s.(codes := WithoutCodes(s.codes, user) + NewCodes(user, texts, s.nextCode), nextCode := s.nextCode + |texts|)
  }

  /** A second factor: refused, or accepted with the recovery row it spends, if any. */
  datatype Factor = Denied | Granted(recovery: Option<nat>, codes: seq<Code>)

  function SecondFactor(s: State, user: string, code: string, totpOk: bool): Factor
    requires user in s.users
  {
    if s.users[user].hasSecret && totpOk then Granted(None, s.codes)
    else match FindCode(s.codes, user, code)
      case At(k) =>
        if k < |s.codes| then Granted(Some(s.codes[k].id), s.codes[k := s.codes[k].(used := true)]) else Denied
      case _ => Denied
  }

  // ---------------------------------------------------------------- requests

  function SetUser(s: State, user: string, u: User): State {
    s.(users := s.users[user := u])
  }

  function DoLogin(s: State, user: string, password: string): State {
    if user !in s.users || !s.users[user].active || s.users[user].password != password then s
    else if s.users[user].mfaEnabled then Issue(s, user, CHALLENGE_TTL, Challenge)
    else Issue(s, user, ACCESS_TTL, ByPassword)
  }

  function DoLogout(s: State, t: nat): State {
    if Authenticate(s, t, false).None? then s
    else s.(revocations := RevokeToken(s.revocations, t, s.issued[t].exp))
  }

  /** The challenge is good: unexpired, unused, of an active MFA user at the same credential version. */
  predicate ChallengeHolds(s: State, t: nat) {
    && Decodes(s, t) && s.issued[t].origin.Challenge? && !IsRevoked(s.revocations, t)
    && var u := s.issued[t].user;
      u in s.users && s.users[u].active && s.users[u].mfaEnabled && s.issued[t].cver == s.users[u].version
  }

  function DoMfaVerify(s: State, t: nat, code: string, totpOk: bool): State {
    if !ChallengeHolds(s, t) then s
    else
      var u := s.issued[t].user;
      match SecondFactor(s, u, code, totpOk)
      case Denied => s
      case Granted(recovery, codes) =>
        Issue(s.(codes := codes, revocations := RevokeToken(s.revocations, t, s.now + CHALLENGE_TTL)),
              u, ACCESS_TTL, ByChallenge(t, recovery))
  }

  function DoMfaSetup(s: State, t: nat): State {
    var u := Authenticate(s, t, false);
    if u.None? || s.users[u.value].mfaEnabled then s else SetUser(s, u.value, s.users[u.value].(hasSecret := true))
  }

  function DoMfaConfirm(s: State, t: nat, totpOk: bool, texts: seq<string>): State {
    var u := Authenticate(s, t, false);
    if u.None? || s.users[u.value].mfaEnabled || !s.users[u.value].hasSecret || !totpOk || !DistinctTexts(texts) then s
    else ReplaceCodes(SetUser(s, u.value, s.users[u.value].(mfaEnabled := true)), u.value, texts)
  }

  function DoMfaDisable(s: State, t: nat, code: string, totpOk: bool): State {
    var u := Authenticate(s, t, false);
    if u.None? || !s.users[u.value].mfaEnabled then s
    else match SecondFactor(s, u.value, code, totpOk)
      case Denied => s
      case Granted(recovery, codes) =>
        var off := SetUser(s, u.value, s.users[u.value].(mfaEnabled := false, hasSecret := false));
        Issue(off.(codes := WithoutCodes(codes, u.value)), u.value, ACCESS_TTL, ByDisable(recovery))
  }

  function DoRegenerate(s: State, t: nat, password: string, texts: seq<string>): State {
    var u := Authenticate(s, t, false);
    if u.None? || !s.users[u.value].mfaEnabled || s.users[u.value].password != password || !DistinctTexts(texts) then s
    else ReplaceCodes(s, u.value, texts)
  }

  predicate MayChange(s: State, t: nat, current: string, next: string, policyOk: bool) {
    var u := Authenticate(s, t, true);
    u.Some? && current != "" && next != "" && policyOk
    && s.users[u.value].password == current && s.users[u.value].password != next
  }

  function DoChangePassword(s: State, t: nat, current: string, next: string, policyOk: bool): State {
    if !MayChange(s, t, current, next, policyOk) then s
    else
      var user := s.issued[t].user;
      var u := s.users[user];
      SetUser(s, user, u.(password := next, mustChange := false, version := OrOne(u.version) + 1))
  }

  predicate MayReset(s: State, t: nat, target: string) {
    var actor := Authenticate(s, t, false);
    actor.Some? && actor.value != target && target in s.users
  }

  function DoAdminReset(s: State, t: nat, target: string, temporary: string): State {
    if !MayReset(s, t, target) then s
    else
      var u := s.users[target];
      SetUser(s, target, u.(password := temporary, mustChange := true, version := OrOne(u.version) + 1))
  }

  function Step(s: State, ev: Event): State {
    match ev
    case Tick(d) => s.(now := s.now + d)
    case Register(user, password) =>
      if user in s.users then s else SetUser(s, user, User(true, 1, false, password, false, false))
    case SetActive(user, active) =>
      if user !in s.users then s else SetUser(s, user, s.users[user].(active := active))
    case Login(user, password) => DoLogin(s, user, password)
    case Logout(t) => DoLogout(s, t)
    case MfaSetup(t) => DoMfaSetup(s, t)
    case MfaConfirm(t, totpOk, texts) => DoMfaConfirm(s, t, totpOk, texts)
    case MfaVerify(t, code, totpOk) => DoMfaVerify(s, t, code, totpOk)
    case MfaDisable(t, code, totpOk) => DoMfaDisable(s, t, code, totpOk)
    case Regenerate(t, password, texts) => DoRegenerate(s, t, password, texts)
    case ChangePassword(t, current, next, policyOk) => DoChangePassword(s, t, current, next, policyOk)
    case AdminReset(t, target, temporary) => DoAdminReset(s, t, target, temporary)
    case Purge => s.(revocations := PurgeExpired(s.revocations, s.now))
  }

  function Run(s: State, events: seq<Event>): State {
    if events == [] then s else Step(Run(s, events[..|events| - 1]), events[|events| - 1])
  }

  function Start(now: Instant): State {
    State(now, map[], [], [], [], 0)
  }

  // ---------------------------------------------------------------- what a step may change

  /** A revocation that outlasts the token it names. */
  predicate RevokedPast(rows: seq<Revocation>, t: nat, exp: Instant) {
    exists i :: 0 <= i < |rows| && rows[i].jti == t && rows[i].expires >= exp
  }

  lemma {:induction false} PurgeMembers(rows: seq<Revocation>, now: Instant, r: Revocation)
    ensures r in PurgeExpired(rows, now) <==> r in rows && r.expires >= now
  {
    if rows != [] {
      PurgeMembers(rows[..|rows| - 1], now, r);
      assert rows == rows[..|rows| - 1] + [rows[|rows| - 1]];
    }
  }

  lemma RevocationLasts(s: State, ev: Event, t: nat, exp: Instant)
    requires RevokedPast(s.revocations, t, exp)
    ensures RevokedPast(Step(s, ev).revocations, t, exp) || Step(s, ev).now >= exp
  {
    var i :| 0 <= i < |s.revocations| && s.revocations[i].jti == t && s.revocations[i].expires >= exp;
    var r := s.revocations[i];
    var rows := Step(s, ev).revocations;
    if ev.Purge? {
      PurgeMembers(s.revocations, s.now, r);
      if r.expires >= s.now {
        var k :| 0 <= k < |rows| && rows[k] == r;
      }
    } else {
      assert rows[i] == r;
    }
  }

  /** Users are never removed and credential versions only grow. */
  predicate VersionsGrow(users: map<string, User>, users': map<string, User>) {
    forall u :: u in users ==> u in users' && users[u].version <= users'[u].version
  }

  lemma StepGrows(s: State, ev: Event)
    ensures var s' := Step(s, ev);
      s.now <= s'.now && s.issued <= s'.issued && VersionsGrow(s.users, s'.users)
  {
  }

  // ---------------------------------------------------------------- dead tokens

  /** Expired, or revoked until past its expiry. */
  predicate Burnt(s: State, t: nat) {
    t < |s.issued| && (s.now >= s.issued[t].exp || RevokedPast(s.revocations, t, s.issued[t].exp))
  }

  /** Issued under an earlier credential version. */
  predicate Outdated(s: State, t: nat) {
    t < |s.issued| && s.issued[t].user in s.users && s.issued[t].cver < s.users[s.issued[t].user].version
  }

  predicate Dead(s: State, t: nat) {
    Burnt(s, t) || Outdated(s, t)
  }

  lemma DeadIsRefused(s: State, t: nat)
    requires Dead(s, t)
    ensures Authenticate(s, t, false).None? && Authenticate(s, t, true).None? && !ChallengeHolds(s, t)
  {
  }

  lemma BurntStaysBurnt(s: State, ev: Event, t: nat)
    requires Burnt(s, t)
    ensures Burnt(Step(s, ev), t)
  {
    StepGrows(s, ev);
    if RevokedPast(s.revocations, t, s.issued[t].exp) { RevocationLasts(s, ev, t, s.issued[t].exp); }
  }

  lemma DeadStaysDead(s: State, ev: Event, t: nat)
    requires Dead(s, t)
    ensures Dead(Step(s, ev), t)
  {
    StepGrows(s, ev);
    if Burnt(s, t) { BurntStaysBurnt(s, ev, t); }
  }

  /**
   A dead token is refused in every later state, whatever happens in between: no purge,
   no reactivation and no further password change brings it back.
   */
  lemma {:induction false} DeadForever(s: State, events: seq<Event>, t: nat)
    requires Dead(s, t)
    ensures var s' := Run(s, events);
      Dead(s', t) && Authenticate(s', t, false).None? && Authenticate(s', t, true).None? && !ChallengeHolds(s', t)
  {
    if events == [] {
      DeadIsRefused(s, t);
    } else {
      DeadForever(s, events[..|events| - 1], t);
      DeadStaysDead(Run(s, events[..|events| - 1]), events[|events| - 1], t);
      DeadIsRefused(Run(s, events), t);
    }
  }

  // ---------------------------------------------------------------- the invariant

  predicate TokensKnown(s: State) {
    forall t :: 0 <= t < |s.issued| ==>
      && s.issued[t].user in s.users
      && (s.issued[t].origin.Challenge? ==> s.issued[t].exp <= s.now + CHALLENGE_TTL)
  }

  /** No token is ahead of its user's credential version. */
  predicate TokensBehind(s: State) {
    forall t :: 0 <= t < |s.issued| && s.issued[t].user in s.users ==>
      s.issued[t].cver <= OrOne(s.users[s.issued[t].user].version)
  }

  /** What a session may be exchanged for: a challenge, or the recovery row that stood in for the second factor. */
  datatype Credential = OfChallenge(challenge: nat) | OfCode(id: nat)

  function SpentCode(o: Origin): Option<nat> {
    match o
    case ByChallenge(_, r) => r
    case ByDisable(r) => r
    case _ => None
  }

  predicate Uses(o: Origin, c: Credential) {
    match c
    case OfChallenge(t) => o.ByChallenge? && o.challenge == t
    case OfCode(id) => SpentCode(o) == Some(id)
  }

  predicate CodesOwned(codes: seq<Code>, next: nat) {
    && (forall k :: 0 <= k < |codes| ==> codes[k].id < next)
    && (forall j, k :: 0 <= j < k < |codes| ==> codes[j].id != codes[k].id)
  }

  /** The unique index on user and code: it refuses a drawn set of codes that repeats one. */
  predicate CodesDiffer(codes: seq<Code>) {
    forall j, k :: 0 <= j < k < |codes| && codes[j].user == codes[k].user ==> codes[j].text != codes[k].text
  }

  predicate NotFresh(codes: seq<Code>, id: nat) {
    forall k :: 0 <= k < |codes| && codes[k].id == id ==> codes[k].used
  }

  /** A challenge that is burnt, a recovery row that is used or gone. */
  predicate Consumed(s: State, c: Credential) {
    match c
    case OfChallenge(t) => Burnt(s, t)
    case OfCode(id) => id < s.nextCode && NotFresh(s.codes, id)
  }

  ghost predicate SpentIsConsumed(s: State) {
    forall t, c :: 0 <= t < |s.issued| && Uses(s.issued[t].origin, c) ==> Consumed(s, c)
  }

  ghost predicate SpentOnce(s: State) {
    forall t, u, c :: 0 <= t < u < |s.issued| && Uses(s.issued[t].origin, c) ==> !Uses(s.issued[u].origin, c)
  }

  ghost predicate Sound(s: State) {
    && TokensKnown(s) && TokensBehind(s) && CodesOwned(s.codes, s.nextCode)
    && SpentIsConsumed(s) && SpentOnce(s)
  }

  lemma StepKeepsTokens(s: State, ev: Event)
    requires TokensKnown(s)
    ensures TokensKnown(Step(s, ev)) && (TokensBehind(s) ==> TokensBehind(Step(s, ev)))
  {
  }

  lemma ExchangeKillsChallenge(s: State, t: nat, code: string, totpOk: bool)
    requires TokensKnown(s)
    ensures var s' := DoMfaVerify(s, t, code, totpOk); s' != s ==> Burnt(s', t)
  {
    var s' := DoMfaVerify(s, t, code, totpOk);
    if s' != s {
      assert s'.revocations[|s.revocations|] == Revocation(t, s.now + CHALLENGE_TTL);
      assert RevokedPast(s'.revocations, t, s'.issued[t].exp);
    }
  }

  // ---------------------------------------------------------------- recovery codes are spent once

  lemma {:induction false} CodeFound(codes: seq<Code>, user: string, text: string)
    ensures var l := FindCode(codes, user, text);
      l.At? ==> l.k < |codes| && codes[l.k].user == user && codes[l.k].text == text && !codes[l.k].used
  {
    if codes != [] { CodeFound(codes[..|codes| - 1], user, text); }
  }

  /** Rows of `after` are rows of `before`, or used versions of them, under the same ids. */
  predicate Shrinks(before: seq<Code>, after: seq<Code>) {
    && (forall j, k :: 0 <= j < k < |after| ==> after[j].id != after[k].id)
    && (forall k :: 0 <= k < |after| ==>
        exists j :: 0 <= j < |before| && before[j].id == after[k].id && (before[j].used ==> after[k].used))
  }

  lemma {:induction false} DeletionShrinks(codes: seq<Code>, user: string)
    requires forall j, k :: 0 <= j < k < |codes| ==> codes[j].id != codes[k].id
    ensures Shrinks(codes, WithoutCodes(codes, user))
  {
    if codes != [] {
      var n := |codes| - 1;
      var rest, after := WithoutCodes(codes[..n], user), WithoutCodes(codes, user);
      DeletionShrinks(codes[..n], user);
      forall k | 0 <= k < |after|
        ensures exists j :: 0 <= j < |codes| && codes[j].id == after[k].id && (codes[j].used ==> after[k].used)
      {
        if k < |rest| {
          var j :| 0 <= j < n && codes[..n][j].id == rest[k].id && (codes[..n][j].used ==> rest[k].used);
          assert codes[j].id == after[k].id;
        } else {
          assert codes[n].id == after[k].id;
        }
      }
    }
  }

  lemma ShrinkKeepsNotFresh(before: seq<Code>, after: seq<Code>, id: nat)
    requires Shrinks(before, after) && NotFresh(before, id)
    ensures NotFresh(after, id)
  {
  }

  lemma ShrinkKeepsOwned(before: seq<Code>, after: seq<Code>, next: nat)
    requires Shrinks(before, after) && CodesOwned(before, next)
    ensures CodesOwned(after, next)
  {
  }

  lemma ReplaceKeepsCodes(s: State, user: string, texts: seq<string>)
    requires CodesOwned(s.codes, s.nextCode)
    ensures var s' := ReplaceCodes(s, user, texts);
      && CodesOwned(s'.codes, s'.nextCode)
      && forall id: nat :: id < s.nextCode && NotFresh(s.codes, id) ==> NotFresh(s'.codes, id)
  {
    DeletionShrinks(s.codes, user);
    ShrinkKeepsOwned(s.codes, WithoutCodes(s.codes, user), s.nextCode);
    forall id: nat | id < s.nextCode && NotFresh(s.codes, id)
      ensures NotFresh(ReplaceCodes(s, user, texts).codes, id)
    {
      ShrinkKeepsNotFresh(s.codes, WithoutCodes(s.codes, user), id);
    }
  }

  /** A granted factor names a row that was fresh before and is not fresh after. */
  lemma FactorSpends(s: State, user: string, code: string, totpOk: bool)
    requires user in s.users && CodesOwned(s.codes, s.nextCode)
    ensures var f := SecondFactor(s, user, code, totpOk);
      f.Granted? ==>
        && CodesOwned(f.codes, s.nextCode)
        && (forall id :: NotFresh(s.codes, id) ==> NotFresh(f.codes, id))
        && (f.recovery.Some? ==>
             && f.recovery.value < s.nextCode
             && !NotFresh(s.codes, f.recovery.value) && NotFresh(f.codes, f.recovery.value))
  {
    CodeFound(s.codes, user, code);
  }

  lemma StepKeepsCodes(s: State, ev: Event)
    requires CodesOwned(s.codes, s.nextCode)
    ensures var s' := Step(s, ev);
      && CodesOwned(s'.codes, s'.nextCode) && s.nextCode <= s'.nextCode
      && forall id: nat :: id < s.nextCode && NotFresh(s.codes, id) ==> NotFresh(s'.codes, id)
  {
    if Step(s, ev).codes != s.codes {
      match ev {
        case MfaConfirm(t, totpOk, texts) => ReplaceKeepsCodes(s, s.issued[t].user, texts);
        case Regenerate(t, password, texts) => ReplaceKeepsCodes(s, s.issued[t].user, texts);
        case MfaVerify(t, code, totpOk) => FactorSpends(s, s.issued[t].user, code, totpOk);
        case MfaDisable(t, code, totpOk) => DisableKeepsCodes(s, t, code, totpOk);
      }
    }
  }

  lemma DisableKeepsCodes(s: State, t: nat, code: string, totpOk: bool)
    requires CodesOwned(s.codes, s.nextCode) && DoMfaDisable(s, t, code, totpOk) != s
    ensures var s' := DoMfaDisable(s, t, code, totpOk);
      && CodesOwned(s'.codes, s.nextCode)
      && (forall id: nat :: NotFresh(s.codes, id) ==> NotFresh(s'.codes, id))
      && forall id: nat :: NotFresh(SecondFactor(s, s.issued[t].user, code, totpOk).codes, id) ==>
          NotFresh(s'.codes, id)
  {
    var s' := DoMfaDisable(s, t, code, totpOk);
    var u := s.issued[t].user;
    var codes := SecondFactor(s, u, code, totpOk).codes;
    FactorSpends(s, u, code, totpOk);
    DeletionShrinks(codes, u);
    ShrinkKeepsOwned(codes, s'.codes, s.nextCode);
    forall id: nat | NotFresh(codes, id)
      ensures NotFresh(s'.codes, id)
    {
      ShrinkKeepsNotFresh(codes, s'.codes, id);
    }
  }

  lemma ConsumedStays(s: State, ev: Event, c: Credential)
    requires CodesOwned(s.codes, s.nextCode) && Consumed(s, c)
    ensures Consumed(Step(s, ev), c)
  {
    if c.OfChallenge? { BurntStaysBurnt(s, ev, c.challenge); } else { StepKeepsCodes(s, ev); }
  }

  /** A session is issued on credentials that were not consumed before and are consumed after. */
  lemma NewSessionConsumes(s: State, ev: Event, c: Credential)
    requires TokensKnown(s) && CodesOwned(s.codes, s.nextCode)
    requires |s.issued| < |Step(s, ev).issued| && Uses(Step(s, ev).issued[|s.issued|].origin, c)
    ensures !Consumed(s, c) && Consumed(Step(s, ev), c)
  {
    match ev {
      case MfaVerify(t, code, totpOk) =>
        FactorSpends(s, s.issued[t].user, code, totpOk);
        ExchangeKillsChallenge(s, t, code, totpOk);
        if Dead(s, t) { DeadIsRefused(s, t); }
      case MfaDisable(t, code, totpOk) =>
        FactorSpends(s, s.issued[t].user, code, totpOk);
        DisableKeepsCodes(s, t, code, totpOk);
    }
  }

  lemma StepKeepsSpent(s: State, ev: Event)
    requires TokensKnown(s) && CodesOwned(s.codes, s.nextCode) && SpentIsConsumed(s)
    ensures SpentIsConsumed(Step(s, ev))
  {
    var s' := Step(s, ev);
    OneTokenAtMost(s, ev);
    forall t, c | 0 <= t < |s'.issued| && Uses(s'.issued[t].origin, c)
      ensures Consumed(s', c)
    {
      if t < |s.issued| {
        assert Uses(s.issued[t].origin, c);
        ConsumedStays(s, ev, c);
      } else {
        NewSessionConsumes(s, ev, c);
      }
    }
  }

  lemma StepKeepsSound(s: State, ev: Event)
    requires Sound(s)
    ensures Sound(Step(s, ev))
  {
    var s' := Step(s, ev);
    StepKeepsTokens(s, ev);
    StepKeepsCodes(s, ev);
    StepKeepsSpent(s, ev);
    OneTokenAtMost(s, ev);
    forall t, u, c | 0 <= t < u < |s'.issued| && Uses(s'.issued[t].origin, c)
      ensures !Uses(s'.issued[u].origin, c)
    {
      assert s'.issued[t] == s.issued[t];
      assert Uses(s.issued[t].origin, c);
      if u == |s.issued| && Uses(s'.issued[u].origin, c) { NewSessionConsumes(s, ev, c); }
    }
  }

  lemma OneTokenAtMost(s: State, ev: Event)
    ensures s.issued <= Step(s, ev).issued && |Step(s, ev).issued| <= |s.issued| + 1
  {
  }

  // ---------------------------------------------------------------- over every run

  lemma {:induction false} RunKeepsSound(s: State, events: seq<Event>)
    requires Sound(s)
    ensures Sound(Run(s, events))
  {
    if events != [] {
      var mid := Run(s, events[..|events| - 1]);
      RunKeepsSound(s, events[..|events| - 1]);
      StepKeepsSound(mid, events[|events| - 1]);
    }
  }

  lemma {:induction false} DeletionKeepsDiffering(codes: seq<Code>, user: string)
    requires CodesDiffer(codes)
    ensures CodesDiffer(WithoutCodes(codes, user))
    ensures forall c :: c in WithoutCodes(codes, user) <==> c in codes && c.user != user
  {
    if codes != [] {
      var n := |codes| - 1;
      DeletionKeepsDiffering(codes[..n], user);
      assert codes == codes[..n] + [codes[n]];
      forall c | c in WithoutCodes(codes[..n], user) && c.user == codes[n].user ensures c.text != codes[n].text {
        var j :| 0 <= j < n && codes[..n][j] == c;
        assert codes[j].text != codes[n].text;
      }
    }
  }

  lemma ReplacementKeepsDiffering(s: State, user: string, texts: seq<string>)
    requires CodesDiffer(s.codes) && DistinctTexts(texts)
    ensures CodesDiffer(ReplaceCodes(s, user, texts).codes)
  {
    var kept, all := WithoutCodes(s.codes, user), ReplaceCodes(s, user, texts).codes;
    DeletionKeepsDiffering(s.codes, user);
    forall j, k | 0 <= j < |kept| <= k < |all|
      ensures all[j].user != all[k].user
    {
      assert kept[j] in kept;
    }
  }

  lemma StepKeepsDiffering(s: State, ev: Event)
    requires CodesDiffer(s.codes)
    ensures CodesDiffer(Step(s, ev).codes)
  {
    if Step(s, ev).codes != s.codes {
      match ev {
        case MfaConfirm(t, totpOk, texts) =>
          var u := s.issued[t].user;
          ReplacementKeepsDiffering(SetUser(s, u, s.users[u].(mfaEnabled := true)), u, texts);
        case Regenerate(t, password, texts) => ReplacementKeepsDiffering(s, s.issued[t].user, texts);
        case MfaVerify(t, code, totpOk) => CodeFound(s.codes, s.issued[t].user, code);
        case MfaDisable(t, code, totpOk) =>
          var u := s.issued[t].user;
          CodeFound(s.codes, u, code);
          DeletionKeepsDiffering(SecondFactor(s, u, code, totpOk).codes, u);
      }
    }
  }

  lemma {:induction false} DifferingIsNeverAmbiguous(codes: seq<Code>, user: string, text: string)
    requires CodesDiffer(codes)
    ensures FindCode(codes, user, text) != Ambiguous
    ensures FindCode(codes, user, text).At? ==>
        exists k :: 0 <= k < |codes| && codes[k].user == user && codes[k].text == text
  {
    if codes != [] {
      var n := |codes| - 1;
      DifferingIsNeverAmbiguous(codes[..n], user, text);
      if FindCode(codes[..n], user, text).At? {
        var k :| 0 <= k < n && codes[..n][k].user == user && codes[..n][k].text == text;
        assert codes[k].user == user && codes[k].text == text;
      } else if FindCode(codes, user, text).At? {
        assert codes[n].user == user && codes[n].text == text;
      }
    }
  }

  /** Over any run of requests, looking a recovery code up never meets two rows. */
  lemma {:induction false} RecoveryCodesAreUnambiguous(now: Instant, events: seq<Event>, user: string, text: string)
    ensures CodesDiffer(Run(Start(now), events).codes)
    ensures FindCode(Run(Start(now), events).codes, user, text) != Ambiguous
  {
    if events != [] {
      RecoveryCodesAreUnambiguous(now, events[..|events| - 1], user, text);
      StepKeepsDiffering(Run(Start(now), events[..|events| - 1]), events[|events| - 1]);
    }
    DifferingIsNeverAmbiguous(Run(Start(now), events).codes, user, text);
  }

  /** Over any run of requests, one challenge and one recovery code each lead to at most one session. */
  lemma {:induction false} FactorsAreSingleUse(now: Instant, events: seq<Event>, t: nat, u: nat)
    requires t < u < |Run(Start(now), events).issued|
    ensures var a, b := Run(Start(now), events).issued[t].origin, Run(Start(now), events).issued[u].origin;
      forall c :: Uses(a, c) ==> !Uses(b, c)
  {
    RunKeepsSound(Start(now), events);
  }

  /** After a logout the token is never accepted again, purges included. */
  lemma {:induction false} LogoutIsFinal(now: Instant, before: seq<Event>, t: nat, after: seq<Event>)
    requires Authenticate(Run(Start(now), before), t, false).Some?
    ensures Authenticate(Run(Step(Run(Start(now), before), Logout(t)), after), t, true).None?
  {
    var s := Run(Start(now), before);
    var s' := Step(s, Logout(t));
    assert s'.revocations[|s.revocations|] == Revocation(t, s.issued[t].exp);
    assert RevokedPast(s'.revocations, t, s'.issued[t].exp);
    DeadForever(s', after, t);
  }

  /**
   After a password change or reset, no token issued to that user before it is accepted again,
   session or challenge.
   */
  lemma {:induction false} NewPasswordEndsEverySession(now: Instant, before: seq<Event>, ev: Event, t: nat,
          after: seq<Event>)
    requires var s := Run(Start(now), before);
      && t < |s.issued|
      && match ev
         case ChangePassword(p, current, next, policyOk) => MayChange(s, p, current, next, policyOk) &&
             s.issued[p].user == s.issued[t].user
         case AdminReset(p, target, temporary) => MayReset(s, p, target) && target == s.issued[t].user
         case _ => false
    ensures var s' := Run(Step(Run(Start(now), before), ev), after);
      Authenticate(s', t, true).None? && !ChallengeHolds(s', t)
  {
    var s := Run(Start(now), before);
    RunKeepsSound(Start(now), before);
    assert Dead(Step(s, ev), t);
    DeadForever(Step(s, ev), after, t);
  }

  // ---------------------------------------------------------------- and nothing else ends a session

  /** The requests that end a session before its time. */
  predicate Ends(s: State, ev: Event, t: nat) {
    t < |s.issued| && match ev
    case Logout(p) => p == t && Authenticate(s, t, false).Some?
    case ChangePassword(p, current, next, policyOk) => MayChange(s, p, current, next, policyOk) &&
        s.issued[p].user == s.issued[t].user
    case AdminReset(p, target, _) => MayReset(s, p, target) && target == s.issued[t].user
    case _ => false
  }

  predicate EndsAt(s: State, events: seq<Event>, k: nat, t: nat) {
    k < |events| && Ends(Run(s, events[..k]), events[k], t)
  }

  predicate EndedWithin(s: State, events: seq<Event>, t: nat) {
    exists k: nat :: k < |events| && EndsAt(s, events, k, t)
  }

  /** Neither revoked nor outdated. */
  predicate Current(s: State, t: nat) {
    && t < |s.issued| && !IsRevoked(s.revocations, t)
    && s.issued[t].user in s.users && s.issued[t].cver == s.users[s.issued[t].user].version
  }

  lemma {:induction false} RunGrows(s: State, events: seq<Event>)
    ensures s.issued <= Run(s, events).issued && s.now <= Run(s, events).now
  {
    if events != [] {
      RunGrows(s, events[..|events| - 1]);
      StepGrows(Run(s, events[..|events| - 1]), events[|events| - 1]);
    }
  }

  lemma EndsAtPrefix(s: State, events: seq<Event>, k: nat, t: nat)
    requires events != [] && k < |events| - 1
    ensures EndsAt(s, events, k, t) <==> EndsAt(s, events[..|events| - 1], k, t)
  {
    assert events[..|events| - 1][..k] == events[..k];
  }

  lemma EndedSnoc(s: State, events: seq<Event>, t: nat)
    requires events != []
    ensures EndedWithin(s, events, t)
       <==> EndedWithin(s, events[..|events| - 1], t) || EndsAt(s, events, |events| - 1, t)
  {
    var n := |events| - 1;
    if EndedWithin(s, events[..n], t) {
      var k: nat :| k < n && EndsAt(s, events[..n], k, t);
      EndsAtPrefix(s, events, k, t);
    }
    if EndedWithin(s, events, t) {
      var k: nat :| k < |events| && EndsAt(s, events, k, t);
      if k < n { EndsAtPrefix(s, events, k, t); }
    }
  }

  lemma StepCurrent(s: State, ev: Event, t: nat)
    requires Current(s, t) && !s.issued[t].origin.Challenge?
    ensures Current(Step(s, ev), t) <==> !Ends(s, ev, t)
  {
    if ev.Purge? { PurgeForgets(s.revocations, s.now, t); }
    if ev.Logout? && Ends(s, ev, t) {
      assert Step(s, ev).revocations[|s.revocations|].jti == t;
    }
  }

  lemma {:induction false} PurgeForgets(rows: seq<Revocation>, now: Instant, t: nat)
    requires !IsRevoked(rows, t)
    ensures !IsRevoked(PurgeExpired(rows, now), t)
  {
    forall i | 0 <= i < |PurgeExpired(rows, now)|
      ensures PurgeExpired(rows, now)[i].jti != t
    {
      PurgeMembers(rows, now, PurgeExpired(rows, now)[i]);
    }
  }

  lemma EndedIsDead(s: State, ev: Event, t: nat)
    requires Current(s, t) && Ends(s, ev, t)
    ensures Dead(Step(s, ev), t)
  {
    if ev.Logout? {
      var s' := Step(s, ev);
      assert s'.revocations[|s.revocations|] == Revocation(t, s.issued[t].exp);
    }
  }

  lemma {:induction false} CurrentUntilEnded(s: State, events: seq<Event>, t: nat)
    requires Current(s, t) && !s.issued[t].origin.Challenge?
    ensures if EndedWithin(s, events, t) then Dead(Run(s, events), t) else Current(Run(s, events), t)
  {
    if events != [] {
      var mid := Run(s, events[..|events| - 1]);
      var ev := events[|events| - 1];
      CurrentUntilEnded(s, events[..|events| - 1], t);
      EndedSnoc(s, events, t);
      RunGrows(s, events[..|events| - 1]);
      StepGrows(mid, ev);
      if EndedWithin(s, events[..|events| - 1], t) {
        DeadStaysDead(mid, ev, t);
      } else {
        StepCurrent(mid, ev, t);
        if Ends(mid, ev, t) { EndedIsDead(mid, ev, t); }
      }
    }
  }

  /**
   A session that is good now is accepted later exactly when it has not expired, its user is
   active, and since then it was not logged out and its user's password neither changed nor
   was reset; a pending forced change limits it to the password endpoints.
   */
  lemma {:induction false} SessionAcceptedIff(s: State, events: seq<Event>, t: nat, allowPending: bool)
    requires Authenticate(s, t, true).Some?
    ensures var s' := Run(s, events);
      var u := s.issued[t].user;
      u in s'.users && (Authenticate(s', t, allowPending).Some?
        <==> && s'.now < s.issued[t].exp && s'.users[u].active && !EndedWithin(s, events, t)
             && (allowPending || !s'.users[u].mustChange))
  {
    CurrentUntilEnded(s, events, t);
    RunGrows(s, events);
    UsersStay(s, events);
    if EndedWithin(s, events, t) { DeadIsRefused(Run(s, events), t); }
  }

  lemma {:induction false} UsersStay(s: State, events: seq<Event>)
    ensures VersionsGrow(s.users, Run(s, events).users)
  {
    if events != [] {
      UsersStay(s, events[..|events| - 1]);
      StepGrows(Run(s, events[..|events| - 1]), events[|events| - 1]);
    }
  }
}
