/** What each call of `Tokens` leaves in the tables, row by row. */
module TokenOutcomes {
  import opened Wrappers
  import opened Tokens
  import opened TokenSafety

  /** Whatever the status of the membership. */
  ghost predicate IsMember(db: Db, p: nat, t: nat) {
    exists i: nat | i < |db.memberships| :: db.memberships[i].principal == p && db.memberships[i].tenant == t
  }

  lemma MembersAreExact(db: Db, p: nat, t: nat)
    ensures p in Members(db, t) <==> IsMember(db, p, t)
  {
    if IsMember(db, p, t) {
      var i: nat :| i < |db.memberships| && db.memberships[i].principal == p && db.memberships[i].tenant == t;
      assert db.memberships[i].principal in Members(db, t);
    }
  }

  /** Exactly the version of every member of the tenant is one higher. */
  ghost predicate MembersMoved(db: Db, post: Db, t: nat) {
    && |post.principals| == |db.principals|
    && forall p: nat | p < |db.principals| ::
         && post.principals[p].active == db.principals[p].active
         && post.principals[p].version == db.principals[p].version + if IsMember(db, p, t) then 1 else 0
  }

  /** Exactly the version of this principal is one higher. */
  ghost predicate OneMoved(db: Db, post: Db, who: nat) {
    && |post.principals| == |db.principals|
    && forall p: nat | p < |db.principals| ::
         && post.principals[p].active == db.principals[p].active
         && post.principals[p].version == db.principals[p].version + if p == who then 1 else 0
  }

  /** The tenant, if it exists, has this status and its name; every other tenant is as it was. */
  ghost predicate StatusSet(db: Db, post: Db, t: nat, status: TenantStatus) {
    && post.tenants.Keys == db.tenants.Keys
    && forall x | x in db.tenants ::
         post.tenants[x] == if x == t then Tenant(db.tenants[x].name, status) else db.tenants[x]
  }

  ghost predicate StampedRevoked(before: Membership, after: Membership, now: Time) {
    && after.principal == before.principal && after.tenant == before.tenant
    && after.status == REVOKED && after.revokedAt == Some(now)
  }

  lemma SuspendOutcome(db: Db, t: nat)
    ensures var post := After(db, Suspend(t));
            && MembersMoved(db, post, t) && StatusSet(db, post, t, SUSPENDED)
            && post.memberships == db.memberships && post.tokens == db.tokens
  {
    forall p: nat ensures p in Members(db, t) <==> IsMember(db, p, t) { MembersAreExact(db, p, t); }
  }

  lemma ArchiveOutcome(db: Db, t: nat, now: Time)
    ensures var post := After(db, Archive(t, now));
            && MembersMoved(db, post, t) && StatusSet(db, post, t, ARCHIVED)
            && post.tokens == db.tokens && |post.memberships| == |db.memberships|
            && forall i: nat | i < |db.memberships| ::
                 if db.memberships[i].tenant == t then StampedRevoked(db.memberships[i], post.memberships[i], now)
                 else post.memberships[i] == db.memberships[i]
  {
    forall p: nat ensures p in Members(db, t) <==> IsMember(db, p, t) { MembersAreExact(db, p, t); }
  }

  lemma ResumeOutcome(db: Db, t: nat)
    ensures var post := After(db, Resume(t));
            && StatusSet(db, post, t, ACTIVE)
            && post.principals == db.principals && post.memberships == db.memberships && post.tokens == db.tokens
  {
  }

  /** Refused for a taken name first and an unknown administrator second. */
  lemma CreateOutcome(db: Db, name: string, admin: nat, t: nat)
    ensures var taken := exists x | x in db.tenants :: db.tenants[x].name == name;
            && (Created(db, name, admin, t) == Failure(NameExists) <==> taken)
            && (Created(db, name, admin, t) == Failure(AdminNotFound) <==> !taken && |db.principals| <= admin)
    ensures var r, post := Created(db, name, admin, t), After(db, Create(name, admin, t));
            if r.Failure? then post == db
            else
              && OneMoved(db, post, admin) && post.tokens == db.tokens
              && post.memberships == db.memberships + [Membership(admin, t, JOINED, None)]
              && post.tenants.Keys == db.tenants.Keys + {t} && post.tenants[t] == Tenant(name, ACTIVE)
              && forall x | x in db.tenants && x != t :: post.tenants[x] == db.tenants[x]
  {
  }

  /** Refused exactly for an unknown principal or inviter when there is no membership of the two yet. */
  lemma AddMembershipDecision(db: Db, t: nat, p: nat, inviter: nat)
    ensures var r := MemberAdded(db, t, p, inviter);
            && (r.Failure? <==> !IsMember(db, p, t) && (|db.principals| <= p || |db.principals| <= inviter))
            && (r.Failure? ==> r.error == ForeignKey && After(db, AddMembership(t, p, inviter)) == db)
  {
    var found := FindMembership(db.memberships, p, t);
    if found.None? {
      forall i: nat | i < |db.memberships|
        ensures db.memberships[i].principal != p || db.memberships[i].tenant != t
      {
        assert db.memberships[i] in db.memberships;
      }
    }
  }

  /** Otherwise the membership of the two is joined, nothing else in the tables of members and tenants moves. */
  lemma AddMembershipRows(db: Db, t: nat, p: nat, inviter: nat)
    requires MemberAdded(db, t, p, inviter).Success?
    ensures var post := After(db, AddMembership(t, p, inviter));
            && OneMoved(db, post, p) && post.tokens == db.tokens && post.tenants == db.tenants
            && |post.memberships| == |db.memberships| + (if IsMember(db, p, t) then 0 else 1)
            && (forall i: nat | i < |db.memberships| ::
                  (db.memberships[i].principal == p && db.memberships[i].tenant == t)
                  || post.memberships[i] == db.memberships[i])
            && Membership(p, t, JOINED, None) in post.memberships
  {
    var post := After(db, AddMembership(t, p, inviter));
    var found := FindMembership(db.memberships, p, t);
    var i := if found.Some? then found.value else |db.memberships|;
    assert post.memberships[i] == Membership(p, t, JOINED, None);
    if found.None? {
      forall k: nat | k < |db.memberships|
        ensures db.memberships[k].principal != p || db.memberships[k].tenant != t
      {
        assert db.memberships[k] in db.memberships;
      }
    }
  }

  /** Refused exactly for an unknown membership or one of another tenant. */
  lemma RevokeMembershipOutcome(db: Db, t: nat, m: nat, now: Time)
    ensures var r, post := MembershipRevoked(db, t, m, now), After(db, RevokeMembership(t, m, now));
            && (r.Success? <==> m < |db.memberships| && db.memberships[m].tenant == t)
            && if r.Failure? then r.error == MembershipNotFound && post == db
               else
                 && OneMoved(db, post, db.memberships[m].principal)
                 && |post.memberships| == |db.memberships|
                 && StampedRevoked(db.memberships[m], post.memberships[m], now)
                 && post.tokens == db.tokens && post.tenants == db.tenants
                 && forall i: nat | i < |db.memberships| && i != m :: post.memberships[i] == db.memberships[i]
  {
  }

  /** A token is stamped once, with the time of the first call, and no other row is touched. */
  lemma RevokeTokenOutcome(db: Db, i: nat, first: Time, second: Time, now: Time)
    requires i < |db.tokens| && db.tokens[i].revokedAt.None? && db.tokens[i].principal < |db.principals|
    ensures var once := After(db, RevokeToken(i, first));
            && Parse(once, i, now) == TokenRevoked && once.tokens[i].revokedAt == Some(first)
            && After(once, RevokeToken(i, second)) == once
            && once.principals == db.principals && once.memberships == db.memberships && once.tenants == db.tenants
            && |once.tokens| == |db.tokens|
            && forall k: nat | k < |db.tokens| && k != i :: once.tokens[k] == db.tokens[k]
  {
  }

  /** A new principal is enabled: its first token is accepted, with version zero, until it expires. */
  lemma FirstTokenIsAccepted(db: Db, t: nat, expiresAt: Option<Time>, now: Time)
    ensures var p, created := |db.principals|, After(db, CreatePrincipal);
            Parse(After(created, Issue(p, t, expiresAt)), |db.tokens|, now)
            == if expiresAt.Some? && expiresAt.value < now then TokenExpired else Accepted(p, t, 0)
  {
    var p, created := |db.principals|, After(db, CreatePrincipal);
    assert created.principals[p] == Principal(true, 0);
  }
}
