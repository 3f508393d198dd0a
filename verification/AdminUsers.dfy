/**
 Activation and role replacement: each call reads, decides and commits under the mutation
 lock, and the decision refuses whatever would leave no active ADMIN.
 */
module AdminUsers {
  import opened Wrappers

  datatype Role = Operator | FinanceManager | Admin

  /** A user with its role rows. */
  datatype Account = Account(active: bool, roles: seq<Role>)

  type Users = map<string, Account>

  /** A role name outside the vocabulary is None. */
  datatype Request =
    | SetActive(user: string, active: bool, actor: string)
    | ReplaceRoles(user: string, roles: seq<Option<Role>>)

  datatype Reason = UserNotFound | OwnAccount | LastAdmin | InvalidRole | NoRole | NotConfigured

  datatype Verdict = Refuse(why: Reason) | Keep | Change(account: Account)

  predicate IsActiveAdmin(a: Account) {
    a.active && Admin in a.roles
  }

  predicate AnotherAdmin(users: Users, user: string) {
    exists u :: u in users && u != user && IsActiveAdmin(users[u])
  }

  predicate HasAdmin(users: Users) {
    exists u :: u in users && IsActiveAdmin(users[u])
  }

  const CANONICAL: seq<Role> := [Operator, FinanceManager, Admin]

  predicate AllValid(roles: seq<Option<Role>>) {
    forall k :: 0 <= k < |roles| ==> roles[k].Some?
  }

  /** The requested roles, in canonical order. */
  function Canonical(roles: seq<Option<Role>>, n: nat): seq<Role>
    requires n <= 3
  {
    if n == 0 then []
    else Canonical(roles, n - 1) + if Some(CANONICAL[n - 1]) in roles then [CANONICAL[n - 1]] else []
  }

  function DecideActive(users: Users, user: string, active: bool, actor: string): Verdict {
    if user !in users then Refuse(UserNotFound)
    else if active == users[user].active then Keep
    else if !active && user == actor then Refuse(OwnAccount)
    else if !active && Admin in users[user].roles && !AnotherAdmin(users, user) then Refuse(LastAdmin)
    else Change(users[user].(active := active))
  }

  function DecideRoles(users: Users, configured: set<Role>, user: string, roles: seq<Option<Role>>): Verdict {
    if user !in users then Refuse(UserNotFound)
    else if !AllValid(roles) then Refuse(InvalidRole)
    else
      var wanted := Canonical(roles, 3);
      if wanted == [] then Refuse(NoRole)
      else if IsActiveAdmin(users[user]) && Admin !in wanted && !AnotherAdmin(users, user) then Refuse(LastAdmin)
      else if exists r :: r in wanted && r !in configured then Refuse(NotConfigured)
      else Change(users[user].(roles := wanted))
  }

  /** What a call reads and decides. */
  function Decide(users: Users, configured: set<Role>, r: Request): Verdict {
    match r
    case SetActive(user, active, actor) => DecideActive(users, user, active, actor)
    case ReplaceRoles(user, roles) => DecideRoles(users, configured, user, roles)
  }

  /** What a call writes. */
  function Write(users: Users, r: Request, v: Verdict): Users {
    if v.Change? then users[r.user := v.account] else users
  }

  // ---------------------------------------------------------------- one call

  lemma OneCallKeepsAdmin(users: Users, configured: set<Role>, r: Request)
    requires HasAdmin(users)
    ensures HasAdmin(Write(users, r, Decide(users, configured, r)))
  {
    var v := Decide(users, configured, r);
    if v.Change? && !IsActiveAdmin(v.account) && AnotherAdmin(users, r.user) {
      var u :| u in users && u != r.user && IsActiveAdmin(users[u]);
      assert Write(users, r, v)[u] == users[u];
    }
    if v.Change? && IsActiveAdmin(v.account) {
      assert Write(users, r, v)[r.user] == v.account;
    }
  }

  predicate NoRepeats(roles: seq<Role>) {
    forall i, j :: 0 <= i < j < |roles| ==> roles[i] != roles[j]
  }

  function Rank(r: Role): nat {
    match r
    case Operator => 0
    case FinanceManager => 1
    case Admin => 2
  }

  lemma {:induction false} CanonicalIsExact(roles: seq<Option<Role>>, n: nat)
    requires n <= 3
    ensures forall r :: r in Canonical(roles, n) <==> Rank(r) < n && Some(r) in roles
    ensures forall i, j :: 0 <= i < j < |Canonical(roles, n)| ==>
        Rank(Canonical(roles, n)[i]) < Rank(Canonical(roles, n)[j])
  {
    if n > 0 {
      CanonicalIsExact(roles, n - 1);
      assert forall r: Role :: Rank(r) == n - 1 ==> r == CANONICAL[n - 1];
    }
  }

  /**
   A role replacement succeeds exactly when the user exists, every name is a role, some role
   is asked for and all of them are configured, and it does not strip the last active ADMIN.
   It then leaves the requested roles, all of them, none twice, in canonical order.
   */
  lemma ReplacementIsExact(users: Users, configured: set<Role>, user: string, roles: seq<Option<Role>>)
    ensures var v := DecideRoles(users, configured, user, roles);
      && (v.Change? <==>
           && user in users && roles != [] && AllValid(roles)
           && (forall r :: Some(r) in roles ==> r in configured)
           && (IsActiveAdmin(users[user]) && Some(Admin) !in roles ==> AnotherAdmin(users, user)))
      && (v.Change? ==>
           && v.account.active == users[user].active
           && (forall r :: r in v.account.roles <==> Some(r) in roles)
           && NoRepeats(v.account.roles)
           && forall i, j :: 0 <= i < j < |v.account.roles| ==> Rank(v.account.roles[i]) < Rank(v.account.roles[j]))
      && (v.Refuse? || v.Change?)
  {
    var wanted := Canonical(roles, 3);
    CanonicalIsExact(roles, 3);
    assert forall r :: r in wanted <==> Some(r) in roles;
    if AllValid(roles) && roles != [] {
      assert Some(roles[0].value) in roles;
      assert roles[0].value in wanted;
    }
    if wanted != [] { assert Some(wanted[0]) in roles; }
  }

  // ---------------------------------------------------------------- overlapping calls

  datatype Phase = Waiting | Holding | Decided(verdict: Verdict) | Over

  datatype Caller = Caller(request: Request, phase: Phase)

  datatype World = World(users: Users, holders: set<nat>, callers: map<nat, Caller>)

  /** Abort is an exception or a crash: the transaction rolls back and the lock is released. */
  datatype Event = Arrive(c: nat, request: Request) | Acquire(c: nat) | Read(c: nat) | Commit(c: nat) | Abort(c: nat)

  function Move(w: World, c: nat, phase: Phase): World
    requires c in w.callers
  {
    w.(callers := w.callers[c := w.callers[c].(phase := phase)])
  }

  /** One step; without `locked` the mutation lock lets everybody in. */
  function Step(w: World, configured: set<Role>, locked: bool, ev: Event): World {
    if ev.Arrive? then
      if ev.c in w.callers then w else w.(callers := w.callers[ev.c := Caller(ev.request, Waiting)])
    else if ev.c !in w.callers then w
    else
      var me := w.callers[ev.c];
      match (ev, me.phase)
      case (Acquire(c), Waiting) =>
        if locked && w.holders != {} then w else Move(w.(holders := w.holders + {c}), c, Holding)
      case (Read(c), Holding) => Move(w, c, Decided(Decide(w.users, configured, me.request)))
      case (Commit(c), Decided(v)) =>
        Move(w.(users := Write(w.users, me.request, v), holders := w.holders - {c}), c, Over)
      case (Abort(c), Holding) => Move(w.(holders := w.holders - {c}), c, Over)
      case (Abort(c), Decided(_)) => Move(w.(holders := w.holders - {c}), c, Over)
      case _ => w
  }

  function Run(w: World, configured: set<Role>, locked: bool, events: seq<Event>): World {
    if events == [] then w
    else Step(Run(w, configured, locked, events[..|events| - 1]), configured, locked, events[|events| - 1])
  }

  /** At most one caller is inside, and what it decided is still what it would decide now. */
  predicate Serialized(w: World, configured: set<Role>) {
    && (forall c, d :: c in w.holders && d in w.holders ==> c == d)
    && (forall c :: c in w.callers && (w.callers[c].phase.Holding? || w.callers[c].phase.Decided?) ==> c in w.holders)
    && (forall c :: c in w.callers && w.callers[c].phase.Decided? ==>
          w.callers[c].phase.verdict == Decide(w.users, configured, w.callers[c].request))
  }

  predicate RolesSound(users: Users) {
    forall u :: u in users ==> NoRepeats(users[u].roles)
  }

  lemma StepKeepsAdmin(w: World, configured: set<Role>, ev: Event)
    requires Serialized(w, configured) && HasAdmin(w.users) && RolesSound(w.users)
    ensures var w' := Step(w, configured, true, ev);
      Serialized(w', configured) && HasAdmin(w'.users) && RolesSound(w'.users)
  {
    if ev.Commit? && ev.c in w.callers && w.callers[ev.c].phase.Decided? {
      var r := w.callers[ev.c].request;
      OneCallKeepsAdmin(w.users, configured, r);
      if r.ReplaceRoles? { ReplacementIsExact(w.users, configured, r.user, r.roles); }
    }
  }

  /**
   However calls overlap, wherever they are aborted: while the lock serialises them, a system
   that has an active ADMIN has one in every later state, and no user holds a role twice.
   */
  lemma {:induction false} AdminAlwaysRemains(users: Users, configured: set<Role>, events: seq<Event>)
    requires HasAdmin(users) && RolesSound(users)
    ensures var w := Run(World(users, {}, map[]), configured, true, events);
      HasAdmin(w.users) && RolesSound(w.users) && Serialized(w, configured)
  {
    if events != [] {
      AdminAlwaysRemains(users, configured, events[..|events| - 1]);
      StepKeepsAdmin(Run(World(users, {}, map[]), configured, true, events[..|events| - 1]), configured,
          events[|events| - 1]);
    }
  }

  /** A world in which callers 0 and 1 hold these requests. */
  function Pair(users: Users, holders: set<nat>, one: Caller, two: Caller): World {
    World(users, holders, map[0 := one, 1 := two])
  }

  lemma PairMoves(users: Users, holders: set<nat>, one: Caller, two: Caller, phase: Phase)
    ensures Move(Pair(users, holders, one, two), 0, phase) == Pair(users, holders, one.(phase := phase), two)
    ensures Move(Pair(users, holders, one, two), 1, phase) == Pair(users, holders, one, two.(phase := phase))
  {
  }

  lemma {:induction false} RunFour(w: World, configured: set<Role>, locked: bool, e: Event, f: Event, g: Event,
          h: Event)
    ensures Run(w, configured, locked, [e, f, g, h])
         == Step(Step(Step(Step(w, configured, locked, e), configured, locked, f), configured, locked, g), configured,
             locked, h)
  {
    assert [e, f, g, h][..3] == [e, f, g] && [e, f, g][..2] == [e, f] && [e, f][..1] == [e] && [e][..0] == [];
    assert Run(w, configured, locked, []) == w;
    assert Run(w, configured, locked, [e]) == Step(w, configured, locked, e);
    assert Run(w, configured, locked, [e, f]) == Step(Run(w, configured, locked, [e]), configured, locked, f);
    assert Run(w, configured, locked, [e, f, g]) == Step(Run(w, configured, locked, [e, f]), configured, locked, g);
  }

  /** Without the lock both callers get in and both decide on what they read. */
  lemma {:induction false} BothDecide(users: Users, configured: set<Role>, one: Request, two: Request)
    ensures Run(Pair(users, {}, Caller(one, Waiting), Caller(two, Waiting)), configured, false,
        [Acquire(0), Acquire(1), Read(0), Read(1)])
         == Pair(users, {0, 1}, Caller(one, Decided(Decide(users, configured, one))),
             Caller(two, Decided(Decide(users, configured, two))))
  {
    var w := Pair(users, {}, Caller(one, Waiting), Caller(two, Waiting));
    RunFour(w, configured, false, Acquire(0), Acquire(1), Read(0), Read(1));
    PairMoves(users, {0}, Caller(one, Waiting), Caller(two, Waiting), Holding);
    assert {0} + {1} == {0, 1};
    PairMoves(users, {0, 1}, Caller(one, Holding), Caller(two, Waiting), Holding);
    PairMoves(users, {0, 1}, Caller(one, Holding), Caller(two, Holding), Decided(Decide(users, configured, one)));
    PairMoves(users, {0, 1}, Caller(one, Decided(Decide(users, configured, one))), Caller(two, Holding),
        Decided(Decide(users, configured, two)));
  }

  /**
   The lock is what this takes: without it, the only two active admins `a` and `b` can
   deactivate each other, both successfully, and nobody remains.
   */
  lemma {:induction false} WithoutTheLockNobodyRemains(users: Users, configured: set<Role>, a: string, b: string)
    requires a != b && a in users && b in users && IsActiveAdmin(users[a]) && IsActiveAdmin(users[b])
    requires forall u :: u in users && IsActiveAdmin(users[u]) ==> u == a || u == b
    ensures var w := Pair(users, {}, Caller(SetActive(b, false, a), Waiting), Caller(SetActive(a, false, b), Waiting));
      var decided := Run(w, configured, false, [Acquire(0), Acquire(1), Read(0), Read(1)]);
      !HasAdmin(Step(Step(decided, configured, false, Commit(0)), configured, false, Commit(1)).users)
  {
    var one, two := SetActive(b, false, a), SetActive(a, false, b);
    BothDecide(users, configured, one, two);
    assert Decide(users, configured, one) == Change(users[b].(active := false)) by { assert AnotherAdmin(users, b); }
    assert Decide(users, configured, two) == Change(users[a].(active := false)) by { assert AnotherAdmin(users, a); }
  }

  // ---------------------------------------------------------------- the service

  class AdminUserManagement {
    var users: Users
    const configured: set<Role>

    constructor (users: Users, configured: set<Role>)
      ensures this.users == users && this.configured == configured
    {
      this.users, this.configured := users, configured;
    }

    /** Counts the active ADMIN users other than `user`. */
    method ActiveAdminCountExcluding(user: string) returns (count: nat)
      ensures count == 0 <==> !AnotherAdmin(users, user)
    {
      count := 0;
      var todo := users.Keys;
      while todo != {}
        invariant todo <= users.Keys
        invariant count == 0 <==> forall u :: u in users && u !in todo ==> u == user || !IsActiveAdmin(users[u])
        decreases |todo|
      {
        var u :| u in todo;
        if u != user && users[u].active && Admin in users[u].roles { count := count + 1; }
        todo := todo - {u};
      }
    }

    method SetUserActive(user: string, active: bool, actor: string) returns (verdict: Verdict)
      modifies this
      ensures verdict == Decide(old(users), configured, SetActive(user, active, actor))
      ensures users == Write(old(users), SetActive(user, active, actor), verdict)
      ensures HasAdmin(old(users)) ==> HasAdmin(users)
    {
      if HasAdmin(users) { OneCallKeepsAdmin(users, configured, SetActive(user, active, actor)); }
      if user !in users { return Refuse(UserNotFound); }
      var account := users[user];
      if active == account.active { return Keep; }
      if !active {
        if user == actor { return Refuse(OwnAccount); }
        if Admin in account.roles {
          var others := ActiveAdminCountExcluding(user);
          if others == 0 { return Refuse(LastAdmin); }
        }
      }
      users := users[user := account.(active := active)];
      return Change(users[user]);
    }

    method ReplaceUserRoles(user: string, roles: seq<Option<Role>>) returns (verdict: Verdict)
      modifies this
      ensures verdict == Decide(old(users), configured, ReplaceRoles(user, roles))
      ensures users == Write(old(users), ReplaceRoles(user, roles), verdict)
      ensures HasAdmin(old(users)) ==> HasAdmin(users)
    {
      if HasAdmin(users) { OneCallKeepsAdmin(users, configured, ReplaceRoles(user, roles)); }
      if user !in users { return Refuse(UserNotFound); }
      for i := 0 to |roles|
        invariant forall j :: 0 <= j < i ==> roles[j].Some?
      {
        if roles[i].None? { return Refuse(InvalidRole); }
      }
      var unique := UniqueRoles(roles);
      if unique == [] { return Refuse(NoRole); }
      var account := users[user];
      if Admin in account.roles && Admin !in unique && account.active {
        var others := ActiveAdminCountExcluding(user);
        if others == 0 { return Refuse(LastAdmin); }
      }
      for i := 0 to |unique|
        invariant forall j :: 0 <= j < i ==> unique[j] in configured
      {
        if unique[i] !in configured { return Refuse(NotConfigured); }
      }
      ReplaceRows(user, unique);
      return Change(users[user]);
    }

    method UniqueRoles(roles: seq<Option<Role>>) returns (unique: seq<Role>)
      ensures unique == Canonical(roles, 3)
    {
      unique := [];
      for i := 0 to 3
        invariant unique == Canonical(roles, i)
      {
        if Some(CANONICAL[i]) in roles { unique := unique + [CANONICAL[i]]; }
      }
    }

    /** Clears the user's role rows, then inserts the new ones. */
    method ReplaceRows(user: string, roles: seq<Role>)
      requires user in users
      modifies this
      ensures users == old(users)[user := old(users)[user].(roles := roles)]
    {
      users := users[user := users[user].(roles := [])];
      for i := 0 to |roles|
        invariant users == old(users)[user := old(users)[user].(roles := roles[..i])]
      {
        users := users[user := users[user].(roles := users[user].roles + [roles[i]])];
        assert roles[..i + 1] == roles[..i] + [roles[i]];
      }
      assert roles[..|roles|] == roles;
    }
  }
}
