/** Which tokens are accepted, over every run of the calls of `Tokens`. */
module TokenSafety {
  import opened Wrappers
  import opened Tokens

  datatype Action =
    | CreatePrincipal
    /** An administrator enables or disables a principal directly in the table. */
    | SetActive(principal: nat, active: bool)
    | Issue(principal: nat, tenant: nat, expiresAt: Option<Time>)
    | RevokeToken(token: nat, now: Time)
    | Create(name: string, admin: nat, tenant: nat)
    | Suspend(tenant: nat)
    | Resume(tenant: nat)
    | Archive(tenant: nat, now: Time)
    | AddMembership(tenant: nat, principal: nat, inviter: nat)
    | RevokeMembership(tenant: nat, membership: nat, now: Time)

  function After(db: Db, a: Action): Db {
    match a
    case CreatePrincipal => db.(principals := db.principals + [Principal(true, 0)])
    case SetActive(p, active) =>
      if p < |db.principals| then db.(principals := db.principals[p := db.principals[p].(active := active)]) else db
    case Issue(p, t, expiresAt) => OrSame(db, Issued(db, p, t, expiresAt))
    case RevokeToken(i, now) => TokenRevokedAt(db, i, now)
    case Create(name, admin, t) => OrSame(db, Created(db, name, admin, t))
    case Suspend(t) => Suspended(db, t)
    case Resume(t) => Resumed(db, t)
    case Archive(t, now) => Archived(db, t, now)
    case AddMembership(t, p, inviter) => OrSame(db, MemberAdded(db, t, p, inviter))
    case RevokeMembership(t, m, now) => OrSame(db, MembershipRevoked(db, t, m, now))
  }

  /** A new tenant gets a fresh id. */
  ghost predicate Enabled(db: Db, a: Action) {
    a.Create? ==> a.tenant !in db.tenants && forall m | m in db.memberships :: m.tenant != a.tenant
  }

  ghost predicate IsRun(states: seq<Db>, actions: seq<Action>) {
    && |states| == |actions| + 1
    && states[0] == Db([], [], [], map[])
    && forall i | 0 <= i < |actions| :: Enabled(states[i], actions[i]) && states[i + 1] == After(states[i], actions[i])
  }

  /** The version in a token never exceeds that of its principal. */
  ghost predicate Inv(db: Db) {
    forall t | t in db.tokens :: t.principal < |db.principals| && t.version <= db.principals[t.principal].version
  }

  predicate SameExceptRevocation(t: Token, t': Token) {
    && t.principal == t'.principal && t.expiresAt == t'.expiresAt && t.version == t'.version
    && (t.revokedAt.Some? ==> t'.revokedAt == t.revokedAt)
  }

  /** Rows stay, versions only grow, a revocation is never lifted or re-dated. */
  ghost predicate Evolves(db: Db, post: Db) {
    && |db.principals| <= |post.principals| && |db.tokens| <= |post.tokens|
    && (forall i: nat | i < |db.principals| :: db.principals[i].version <= post.principals[i].version)
    && (forall i: nat | i < |db.tokens| :: SameExceptRevocation(db.tokens[i], post.tokens[i]))
  }

  lemma StepEvolves(db: Db, a: Action)
    ensures Evolves(db, After(db, a))
  {
  }

  lemma StepKeeps(db: Db, a: Action)
    requires Inv(db)
    ensures Inv(After(db, a))
  {
    var post := After(db, a);
    StepEvolves(db, a);
    forall i: nat | i < |post.tokens|
      ensures var t := post.tokens[i];
              t.principal < |post.principals| && t.version <= post.principals[t.principal].version
    {
      if i < |db.tokens| {
        assert db.tokens[i] in db.tokens && SameExceptRevocation(db.tokens[i], post.tokens[i]);
      }
    }
  }

  lemma {:induction false} RunKeeps(states: seq<Db>, actions: seq<Action>, k: nat)
    requires IsRun(states, actions) && k < |states|
    ensures Inv(states[k])
  {
    if k > 0 {
      RunKeeps(states, actions, k - 1);
      StepKeeps(states[k - 1], actions[k - 1]);
    }
  }

  lemma {:induction false} RunEvolves(states: seq<Db>, actions: seq<Action>, j: nat, k: nat)
    requires IsRun(states, actions) && j <= k < |states|
    ensures Evolves(states[j], states[k])
    decreases k
  {
    if j < k {
      RunEvolves(states, actions, j, k - 1);
      StepEvolves(states[k - 1], actions[k - 1]);
      var db, mid, post := states[j], states[k - 1], states[k];
      forall i: nat | i < |db.tokens| ensures SameExceptRevocation(db.tokens[i], post.tokens[i]) {
        assert SameExceptRevocation(db.tokens[i], mid.tokens[i]) && SameExceptRevocation(mid.tokens[i], post.tokens[i]);
      }
    }
  }

  // ---- what can still be accepted ----

  /** No call can make this token acceptable again. */
  ghost predicate Dead(db: Db, i: nat, now: Time)
    requires Inv(db) && i < |db.tokens|
  {
    var t := db.tokens[i];
    assert t in db.tokens;
    || t.revokedAt.Some? || (t.expiresAt.Some? && t.expiresAt.value < now)
    || t.version < db.principals[t.principal].version
  }

  /** A known token is accepted exactly when it is not dead and its principal is enabled. */
  lemma AcceptedExactly(db: Db, i: nat, now: Time)
    requires Inv(db) && i < |db.tokens|
    ensures db.tokens[i].principal < |db.principals|
    ensures Parse(db, i, now).Accepted? <==> !Dead(db, i, now) && db.principals[db.tokens[i].principal].active
    ensures Parse(db, i, now) in {TokenRevoked, TokenExpired, VersionMismatch} ==> Dead(db, i, now)
    ensures Parse(db, i, now) != AuthenticationFailed
  {
    assert db.tokens[i] in db.tokens;
  }

  lemma DeadStaysDead(db: Db, post: Db, i: nat, now: Time, later: Time)
    requires Inv(db) && Inv(post) && Evolves(db, post) && i < |db.tokens| && now <= later
    requires Dead(db, i, now)
    ensures Dead(post, i, later)
  {
    assert SameExceptRevocation(db.tokens[i], post.tokens[i]);
    assert db.tokens[i] in db.tokens && post.tokens[i] in post.tokens;
  }

  lemma DeadInLaterStates(states: seq<Db>, actions: seq<Action>, j: nat, k: nat, i: nat, now: Time, later: Time)
    requires IsRun(states, actions) && j <= k < |states| && now <= later && i < |states[j].tokens|
    requires Inv(states[j]) && Dead(states[j], i, now)
    ensures !Parse(states[k], i, later).Accepted?
  {
    RunKeeps(states, actions, k);
    RunEvolves(states, actions, j, k);
    DeadStaysDead(states[j], states[k], i, now, later);
    AcceptedExactly(states[k], i, later);
  }

  /** A token once rejected as revoked, expired or of another version is rejected in every later state. */
  lemma RejectedForever(states: seq<Db>, actions: seq<Action>, j: nat, k: nat, i: nat, now: Time, later: Time)
    requires IsRun(states, actions) && j <= k < |states| && now <= later
    requires Parse(states[j], i, now) in {TokenRevoked, TokenExpired, VersionMismatch}
    ensures !Parse(states[k], i, later).Accepted?
  {
    RunKeeps(states, actions, j);
    AcceptedExactly(states[j], i, now);
    DeadInLaterStates(states, actions, j, k, i, now, later);
  }

  /** Whose earlier tokens a call invalidates. */
  function Affected(db: Db, a: Action): set<nat> {
    match a
    case Suspend(t) => Members(db, t)
    case Archive(t, _) => Members(db, t)
    case RevokeMembership(t, m, _) =>
      if m < |db.memberships| && db.memberships[m].tenant == t then {db.memberships[m].principal} else {}
    case Create(name, admin, t) => if Created(db, name, admin, t).Success? then {admin} else {}
    case AddMembership(t, p, inviter) => if MemberAdded(db, t, p, inviter).Success? then {p} else {}
    case _ => {}
  }

  lemma VersionsAfter(db: Db, a: Action, p: nat)
    requires p < |db.principals|
    ensures p < |After(db, a).principals|
    ensures After(db, a).principals[p].version == db.principals[p].version + if p in Affected(db, a) then 1 else 0
  {
  }

  /**
   A call that is not about the token or its principal's enabling changes whether the token is
   accepted exactly when the principal is affected, and then it rejects it for good.
   */
  lemma CallInvalidatesExactly(states: seq<Db>, actions: seq<Action>, j: nat, i: nat, now: Time)
    requires IsRun(states, actions) && j < |actions| && i < |states[j].tokens|
    requires !actions[j].SetActive? && !actions[j].RevokeToken?
    ensures Parse(states[j + 1], i, now).Accepted?
            <==> Parse(states[j], i, now).Accepted? && states[j].tokens[i].principal !in Affected(states[j], actions[j])
  {
    var db, post := states[j], states[j + 1];
    RunKeeps(states, actions, j);
    RunKeeps(states, actions, j + 1);
    AcceptedExactly(db, i, now);
    AcceptedExactly(post, i, now);
    VersionsAfter(db, actions[j], db.tokens[i].principal);
    assert post.tokens[i] == db.tokens[i];
  }

  /** Suspending, archiving or revoking a membership rejects every earlier token of those affected, ever after. */
  lemma AffectedTokensAreRejected(states: seq<Db>, actions: seq<Action>, j: nat, k: nat, i: nat, later: Time)
    requires IsRun(states, actions) && j < k < |states| && i < |states[j].tokens|
    requires states[j].tokens[i].principal in Affected(states[j], actions[j])
    ensures !Parse(states[k], i, later).Accepted?
  {
    var db, post := states[j], states[j + 1];
    RunKeeps(states, actions, j);
    RunKeeps(states, actions, j + 1);
    assert db.tokens[i] in db.tokens && post.tokens[i] in post.tokens;
    VersionsAfter(db, actions[j], db.tokens[i].principal);
    assert SameExceptRevocation(db.tokens[i], post.tokens[i]) by { StepEvolves(db, actions[j]); }
    DeadInLaterStates(states, actions, j + 1, k, i, later, later);
  }

  /** Resuming a tenant changes no verdict, so it admits no token that was rejected. */
  lemma ResumeAdmitsNothing(db: Db, t: nat, i: nat, now: Time)
    ensures Parse(After(db, Resume(t)), i, now) == Parse(db, i, now)
  {
  }

  /** A new token is accepted exactly while its principal is enabled and it has not expired. */
  lemma IssuedIsAccepted(states: seq<Db>, actions: seq<Action>, j: nat, now: Time)
    requires IsRun(states, actions) && j < |actions|
    requires actions[j].Issue? && actions[j].principal < |states[j].principals|
    ensures var i, a := |states[j].tokens|, actions[j];
            Parse(states[j + 1], i, now).Accepted?
            <==> states[j].principals[a.principal].active && (a.expiresAt.Some? ==> now <= a.expiresAt.value)
  {
    assert states[j + 1] == After(states[j], actions[j]);
  }

  // ---- tenants and memberships ----

  /** Resuming a suspended tenant that was active restores it; only the members' versions have moved on. */
  lemma ResumeUndoesSuspend(db: Db, t: nat)
    requires t in db.tenants && db.tenants[t].status == ACTIVE
    ensures Resumed(Suspended(db, t), t) == db.(principals := Bumped(db.principals, Members(db, t)))
  {
  }

  /** One membership for each principal and tenant. */
  ghost predicate OneEach(memberships: seq<Membership>) {
    forall i, k | 0 <= i < k < |memberships| ::
      memberships[i].principal != memberships[k].principal || memberships[i].tenant != memberships[k].tenant
  }

  lemma StepKeepsOneEach(db: Db, a: Action)
    requires OneEach(db.memberships) && Enabled(db, a)
    ensures OneEach(After(db, a).memberships)
  {
  }

  lemma {:induction false} RunKeepsOneEach(states: seq<Db>, actions: seq<Action>, k: nat)
    requires IsRun(states, actions) && k < |states|
    ensures OneEach(states[k].memberships)
  {
    if k > 0 {
      RunKeepsOneEach(states, actions, k - 1);
      StepKeepsOneEach(states[k - 1], actions[k - 1]);
    }
  }

  /** In every reachable state, adding a member leaves exactly one membership of the two, and it is joined. */
  lemma AddedMemberIsJoined(states: seq<Db>, actions: seq<Action>, j: nat, m: Membership)
    requires IsRun(states, actions) && j < |actions| && actions[j].AddMembership?
    requires MemberAdded(states[j], actions[j].tenant, actions[j].principal, actions[j].inviter).Success?
    requires m.principal == actions[j].principal && m.tenant == actions[j].tenant
    ensures m in states[j + 1].memberships <==> m.status == JOINED && m.revokedAt.None?
  {
    var a, before, post := actions[j], states[j].memberships, states[j + 1].memberships;
    RunKeepsOneEach(states, actions, j);
    RunKeepsOneEach(states, actions, j + 1);
    assert states[j + 1] == After(states[j], a);
    var found := FindMembership(before, a.principal, a.tenant);
    var i := if found.Some? then found.value else |before|;
    assert post[i].principal == a.principal && post[i].tenant == a.tenant
        && post[i].status == JOINED && post[i].revokedAt.None? && post[i] in post;
    if m in post {
      var k :| 0 <= k < |post| && post[k] == m;
      assert k == i;
    }
  }

  /** Only a principal that was disabled can come back: the same token is rejected, then accepted. */
  lemma DisabledCanReturn() returns (states: seq<Db>, actions: seq<Action>)
    ensures IsRun(states, actions) && |states| == 5
    ensures Parse(states[3], 0, 0) == PrincipalDisabled && Parse(states[4], 0, 0).Accepted?
  {
    actions := [CreatePrincipal, Issue(0, 0, None), SetActive(0, false), SetActive(0, true)];
    var s0 := Db([], [], [], map[]);
    var s1 := After(s0, actions[0]);
    var s2 := After(s1, actions[1]);
    var s3 := After(s2, actions[2]);
    states := [s0, s1, s2, s3, After(s3, actions[3])];
  }
}
