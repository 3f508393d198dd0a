/** The authentication routes and services as they run over their tables, tied to module Sessions. */
module SessionService {
  import opened Wrappers
  import opened Sessions

  class AuthService {
    var now: Instant
    var users: map<string, User>
    var issued: seq<Token>
    var revocations: seq<Revocation>
    var codes: seq<Code>
    var nextCode: nat

    ghost function Snapshot(): State
      reads this
    {
      State(now, users, issued, revocations, codes, nextCode)
    }

    constructor (now: Instant)
      ensures Snapshot() == Start(now)
    {
      this.now, users, issued, revocations, codes, nextCode := now, map[], [], [], [], 0;
    }

    method IsTokenRevoked(t: nat) returns (revoked: bool)
      ensures revoked <==> IsRevoked(revocations, t)
    {
      for i := 0 to |revocations|
        invariant forall j :: 0 <= j < i ==> revocations[j].jti != t
      {
        if revocations[i].jti == t { return true; }
      }
      return false;
    }

    /** Inserts, and rolls back when the token id is there already. */
    method RevokeToken(t: nat, expires: Instant)
      modifies `revocations
      ensures revocations == Sessions.RevokeToken(old(revocations), t, expires)
    {
      var revoked := IsTokenRevoked(t);
      if !revoked { revocations := revocations + [Revocation(t, expires)]; }
    }

    method PurgeExpiredRevocations() returns (deleted: nat)
      modifies `revocations
      ensures Snapshot() == Step(old(Snapshot()), Purge)
      ensures deleted == |old(revocations)| - |revocations|
    {
      var kept: seq<Revocation> := [];
      deleted := 0;
      for i := 0 to |revocations|
        invariant kept == PurgeExpired(revocations[..i], now)
        invariant deleted == i - |kept|
      {
        assert revocations[..i + 1][..i] == revocations[..i];
        if revocations[i].expires < now {
          deleted := deleted + 1;
        } else {
          kept := kept + [revocations[i]];
        }
      }
      assert revocations[..|revocations|] == revocations;
      revocations := kept;
    }

    /** The guards in the order the dependency applies them. */
    method GetCurrentUser(t: nat, allowPending: bool) returns (user: Option<string>)
      ensures user == Authenticate(Snapshot(), t, allowPending)
    {
      if t >= |issued| || now >= issued[t].exp { return None; }
      var token := issued[t];
      if token.origin.Challenge? { return None; }
      var revoked := IsTokenRevoked(t);
      if revoked { return None; }
      if token.user !in users { return None; }
      var u := users[token.user];
      if !u.active { return None; }
      if token.cver != u.version { return None; }
      if u.mustChange && !allowPending { return None; }
      return Some(token.user);
    }

    method CreateToken(user: string, ttl: int, origin: Origin) returns (t: nat)
      requires user in users
      modifies `issued
      ensures t == |old(issued)| && Snapshot() == Issue(old(Snapshot()), user, ttl, origin)
    {
      var version := users[user].version;
      t := |issued|;
      issued := issued + [Token(user, Expiry(now, ttl), if version == 0 then 1 else version, origin)];
    }

    /** A session token, or a challenge for users with MFA. */
    method SignIn(user: string, password: string) returns (token: Option<nat>)
      modifies `issued
      ensures Snapshot() == Step(old(Snapshot()), Login(user, password))
      ensures token.Some? <==> user in users && users[user].active && users[user].password == password
      ensures token.Some? ==> token.value == |old(issued)| && |issued| == |old(issued)| + 1
    {
      if user !in users || !users[user].active || users[user].password != password { return None; }
      var t;
      if users[user].mfaEnabled {
        t := CreateToken(user, CHALLENGE_TTL, Challenge);
      } else {
        t := CreateToken(user, ACCESS_TTL, ByPassword);
      }
      return Some(t);
    }

    method SignOut(t: nat) returns (ok: bool)
      modifies `revocations
      ensures Snapshot() == Step(old(Snapshot()), Logout(t))
      ensures ok <==> Authenticate(old(Snapshot()), t, false).Some?
    {
      var user := GetCurrentUser(t, false);
      if user.None? { return false; }
      RevokeToken(t, issued[t].exp);
      return true;
    }

    /** The position of the user's one unused row with this text; it raises on two. */
    method SelectCode(user: string, text: string) returns (found: CodeLookup)
      ensures found == FindCode(codes, user, text)
      ensures found.At? ==> found.k < |codes|
    {
      found := Missing;
      for i := 0 to |codes|
        invariant found == FindCode(codes[..i], user, text)
        invariant found.At? ==> found.k < i
      {
        assert codes[..i + 1][..i] == codes[..i];
        if codes[i].user == user && codes[i].text == text && !codes[i].used {
          found := if found.Missing? then At(i) else Ambiguous;
        }
      }
      assert codes[..|codes|] == codes;
    }

    /** TOTP first, then a recovery code, which is marked as used. */
    method VerifySecondFactor(user: string, code: string, totpOk: bool) returns (granted: bool, recovery: Option<nat>)
      requires user in users
      modifies `codes
      ensures var f := SecondFactor(old(Snapshot()), user, code, totpOk);
        if granted then f == Granted(recovery, codes) else f.Denied? && codes == old(codes)
    {
      if users[user].hasSecret && totpOk { return true, None; }
      var found := SelectCode(user, code);
      if !found.At? { return false, None; }
      recovery := Some(codes[found.k].id);
      codes := codes[found.k := codes[found.k].(used := true)];
      return true, recovery;
    }

    method ExchangeChallenge(t: nat, code: string, totpOk: bool) returns (token: Option<nat>)
      modifies `codes, `revocations, `issued
      ensures Snapshot() == Step(old(Snapshot()), MfaVerify(t, code, totpOk))
      ensures token.Some? ==> ChallengeHolds(old(Snapshot()), t) && token.value == |old(issued)|
      ensures token.None? ==> Snapshot() == old(Snapshot())
    {
      if t >= |issued| || now >= issued[t].exp || !issued[t].origin.Challenge? { return None; }
      var claims := issued[t];
      var revoked := IsTokenRevoked(t);
      if revoked { return None; }
      if claims.user !in users || !users[claims.user].active { return None; }
      if !users[claims.user].mfaEnabled { return None; }
      if claims.cver != users[claims.user].version { return None; }
      var granted, recovery := VerifySecondFactor(claims.user, code, totpOk);
      if !granted { return None; }
      RevokeToken(t, now + CHALLENGE_TTL);
      var session := CreateToken(claims.user, ACCESS_TTL, ByChallenge(t, recovery));
      return Some(session);
    }

    method DeleteCodes(user: string)
      modifies `codes
      ensures codes == WithoutCodes(old(codes), user)
    {
      var kept: seq<Code> := [];
      for i := 0 to |codes|
        invariant kept == WithoutCodes(codes[..i], user)
      {
        assert codes[..i + 1][..i] == codes[..i];
        if codes[i].user != user { kept := kept + [codes[i]]; }
      }
      assert codes[..|codes|] == codes;
      codes := kept;
    }

    /**
     Replaces the user's recovery codes, one insert each; a code drawn twice breaks the unique
     index and undoes it all.
     */
    method PersistRecoveryCodes(user: string, texts: seq<string>) returns (ok: bool)
      modifies `codes, `nextCode
      ensures ok <==> DistinctTexts(texts)
      ensures Snapshot() == if ok then ReplaceCodes(old(Snapshot()), user, texts) else old(Snapshot())
    {
      var savedCodes, savedNext := codes, nextCode;
      DeleteCodes(user);
      ghost var base := codes;
      for i := 0 to |texts|
        invariant nextCode == savedNext + i
        invariant codes == base + NewCodes(user, texts[..i], savedNext)
        invariant forall j, k :: 0 <= j < k < i ==> texts[j] != texts[k]
      {
        if texts[i] in texts[..i] {
          codes, nextCode := savedCodes, savedNext;
          return false;
        }
        assert NewCodes(user, texts[..i + 1], savedNext) == NewCodes(user, texts[..i], savedNext) +
            [Code(savedNext + i, user, texts[i], false)];
        codes := codes + [Code(nextCode, user, texts[i], false)];
        nextCode := nextCode + 1;
      }
      assert texts[..|texts|] == texts;
      return true;
    }

    method VerifySetup(t: nat, totpOk: bool, texts: seq<string>) returns (ok: bool)
      modifies `users, `codes, `nextCode
      ensures Snapshot() == Step(old(Snapshot()), MfaConfirm(t, totpOk, texts))
      ensures !ok ==> Snapshot() == old(Snapshot())
    {
      var user := GetCurrentUser(t, false);
      if user.None? || users[user.value].mfaEnabled || !users[user.value].hasSecret || !totpOk { return false; }
      var saved := users;
      users := users[user.value := users[user.value].(mfaEnabled := true)];
      ok := PersistRecoveryCodes(user.value, texts);
      if !ok { users := saved; }
    }

    method RegenerateCodes(t: nat, password: string, texts: seq<string>) returns (ok: bool)
      modifies `codes, `nextCode
      ensures Snapshot() == Step(old(Snapshot()), Regenerate(t, password, texts))
      ensures !ok ==> Snapshot() == old(Snapshot())
    {
      var user := GetCurrentUser(t, false);
      if user.None? || !users[user.value].mfaEnabled || users[user.value].password != password { return false; }
      ok := PersistRecoveryCodes(user.value, texts);
    }

    method DisableMfa(t: nat, code: string, totpOk: bool) returns (token: Option<nat>)
      modifies `users, `codes, `issued
      ensures Snapshot() == Step(old(Snapshot()), MfaDisable(t, code, totpOk))
      ensures token.Some? ==> token.value == |old(issued)|
      ensures token.None? ==> Snapshot() == old(Snapshot())
    {
      var user := GetCurrentUser(t, false);
      if user.None? || !users[user.value].mfaEnabled { return None; }
      var granted, recovery := VerifySecondFactor(user.value, code, totpOk);
      if !granted { return None; }
      users := users[user.value := users[user.value].(mfaEnabled := false, hasSecret := false)];
      DeleteCodes(user.value);
      var session := CreateToken(user.value, ACCESS_TTL, ByDisable(recovery));
      return Some(session);
    }

    method ChangeOwnPassword(t: nat, current: string, next: string, policyOk: bool) returns (ok: bool)
      modifies `users
      ensures Snapshot() == Step(old(Snapshot()), ChangePassword(t, current, next, policyOk))
      ensures ok <==> MayChange(old(Snapshot()), t, current, next, policyOk)
    {
      var user := GetCurrentUser(t, true);
      if user.None? || current == "" || next == "" || !policyOk { return false; }
      var u := users[user.value];
      if u.password != current { return false; }
      if u.password == next { return false; }
      users := users[user.value := u.(password := next, mustChange := false, version := OrOne(u.version) + 1)];
      return true;
    }

    method AdminResetPassword(t: nat, target: string, temporary: string) returns (ok: bool)
      modifies `users
      ensures Snapshot() == Step(old(Snapshot()), AdminReset(t, target, temporary))
      ensures ok <==> MayReset(old(Snapshot()), t, target)
    {
      var actor := GetCurrentUser(t, false);
      if actor.None? || actor.value == target || target !in users { return false; }
      var u := users[target];
      users := users[target := u.(password := temporary, mustChange := true, version := OrOne(u.version) + 1)];
      return true;
    }
  }
}
