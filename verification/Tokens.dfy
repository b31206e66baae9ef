/** Principals, tokens, tenants and memberships, and the calls that change them. */
module Tokens {
  import opened Wrappers

  type Time = int
  datatype TenantStatus = ACTIVE | SUSPENDED | ARCHIVED
  datatype MembershipStatus = JOINED | REVOKED

  datatype Principal = Principal(active: bool, version: nat)
  datatype Token = Token(principal: nat, tenant: nat, expiresAt: Option<Time>, revokedAt: Option<Time>, version: nat)
  datatype Membership = Membership(principal: nat, tenant: nat, status: MembershipStatus, revokedAt: Option<Time>)
  datatype Tenant = Tenant(name: string, status: TenantStatus)

  /** Principals, tokens and memberships are identified by their position: their rows are never deleted. */
  datatype Db = Db(principals: seq<Principal>, tokens: seq<Token>, memberships: seq<Membership>,
                   tenants: map<nat, Tenant>)

  datatype Refusal = NameExists | AdminNotFound | MembershipNotFound | ForeignKey

  // ---- parse_token ----

  datatype Verdict =
    | Accepted(principal: nat, tenant: nat, version: nat)
    | AuthenticationFailed | TokenRevoked | TokenExpired | PrincipalDisabled | VersionMismatch

  /** The token string is looked up by its hash; `i` is the row it finds, if any. */
  function Parse(db: Db, i: nat, now: Time): Verdict {
    if i >= |db.tokens| || db.tokens[i].principal >= |db.principals| then AuthenticationFailed
    else
      var token := db.tokens[i];
      var principal := db.principals[token.principal];
      if token.revokedAt.Some? then TokenRevoked
      else if token.expiresAt.Some? && token.expiresAt.value < now then TokenExpired
      else if !principal.active then PrincipalDisabled
      else if token.version != principal.version then VersionMismatch
      else Accepted(token.principal, token.tenant, principal.version)
  }

  // ---- the effect of each call ----

  /** `UPDATE principals SET security_version = security_version + 1 WHERE principal_id IN who`. */
  function Bumped(principals: seq<Principal>, who: set<nat>): (r: seq<Principal>)
    ensures |r| == |principals|
    ensures forall i: nat | i < |principals| ::
              r[i] == principals[i].(version := principals[i].version + if i in who then 1 else 0)
  {
    seq(|principals|, i requires 0 <= i < |principals| =>
      principals[i].(version := principals[i].version + if i in who then 1 else 0))
  }

  /** Everyone who ever had a membership of the tenant, whatever its status. */
  function Members(db: Db, t: nat): set<nat> {
    set i | 0 <= i < |db.memberships| && db.memberships[i].tenant == t :: db.memberships[i].principal
  }

  function WithTenantStatus(db: Db, t: nat, status: TenantStatus): Db {
    if t in db.tenants then db.(tenants := db.tenants[t := db.tenants[t].(status := status)]) else db
  }

  function Issued(db: Db, principal: nat, tenant: nat, expiresAt: Option<Time>): Result<Db, Refusal> {
    if principal >= |db.principals| then Failure(ForeignKey)
    else
      var version := db.principals[principal].version;
      Success(db.(tokens := db.tokens + [Token(principal, tenant, expiresAt, None, version)]))
  }

  function TokenRevokedAt(db: Db, i: nat, now: Time): Db {
    if i < |db.tokens| && db.tokens[i].revokedAt.None?
    then db.(tokens := db.tokens[i := db.tokens[i].(revokedAt := Some(now))])
    else db
  }

  /** `t` is the fresh id the call generates. */
  function Created(db: Db, name: string, admin: nat, t: nat): Result<Db, Refusal> {
    if exists x | x in db.tenants :: db.tenants[x].name == name then Failure(NameExists)
    else if admin >= |db.principals| then Failure(AdminNotFound)
    else Success(Db(Bumped(db.principals, {admin}), db.tokens,
                    db.memberships + [Membership(admin, t, JOINED, None)],
                    db.tenants[t := Tenant(name, ACTIVE)]))
  }

  function Suspended(db: Db, t: nat): Db {
    WithTenantStatus(db, t, SUSPENDED).(principals := Bumped(db.principals, Members(db, t)))
  }

  function Resumed(db: Db, t: nat): Db {
    WithTenantStatus(db, t, ACTIVE)
  }

  function AllRevoked(memberships: seq<Membership>, t: nat, now: Time): (r: seq<Membership>)
    ensures |r| == |memberships|
    ensures forall i: nat | i < |memberships| ::
              r[i] == if memberships[i].tenant == t then memberships[i].(status := REVOKED, revokedAt := Some(now))
                      else memberships[i]
  {
    seq(|memberships|, i requires 0 <= i < |memberships| =>
      if memberships[i].tenant == t then memberships[i].(status := REVOKED, revokedAt := Some(now)) else memberships[i])
  }

  function Archived(db: Db, t: nat, now: Time): Db {
    WithTenantStatus(db, t, ARCHIVED).(principals := Bumped(db.principals, Members(db, t)),
                                       memberships := AllRevoked(db.memberships, t, now))
  }

  function FindMembership(memberships: seq<Membership>, principal: nat, t: nat): (found: Option<nat>)
    ensures found.Some? ==> found.value < |memberships|
                            && memberships[found.value].principal == principal && memberships[found.value].tenant == t
    ensures found.None? ==> forall m | m in memberships :: m.principal != principal || m.tenant != t
  {
    if memberships == [] then None
    else if memberships[|memberships| - 1].principal == principal && memberships[|memberships| - 1].tenant == t
    then Some(|memberships| - 1)
    else FindMembership(memberships[..|memberships| - 1], principal, t)
  }

  /** A new row needs both foreign keys; an existing one is reinstated. */
  function MemberAdded(db: Db, t: nat, principal: nat, inviter: nat): Result<Db, Refusal> {
    var bumped := Bumped(db.principals, {principal});
    match FindMembership(db.memberships, principal, t)
    case Some(i) =>
      Success(db.(principals := bumped,
                  memberships := db.memberships[i := db.memberships[i].(status := JOINED, revokedAt := None)]))
    case None =>
      if principal >= |db.principals| || inviter >= |db.principals| then Failure(ForeignKey)
      else Success(db.(principals := bumped, memberships := db.memberships + [Membership(principal, t, JOINED, None)]))
  }

  function MembershipRevoked(db: Db, t: nat, m: nat, now: Time): Result<Db, Refusal> {
    if m >= |db.memberships| || db.memberships[m].tenant != t then Failure(MembershipNotFound)
    else
      Success(db.(principals := Bumped(db.principals, {db.memberships[m].principal}),
                  memberships := db.memberships[m := db.memberships[m].(status := REVOKED, revokedAt := Some(now))]))
  }

  /** The tables as one mutable object; each call is the sequence of statements it issues. */
  class Tables {
    var principals: seq<Principal>
    var tokens: seq<Token>
    var memberships: seq<Membership>
    var tenants: map<nat, Tenant>

    constructor ()
      ensures View() == Db([], [], [], map[])
    {
      principals, tokens, memberships, tenants := [], [], [], map[];
    }

    function View(): Db reads this { Db(principals, tokens, memberships, tenants) }

    method CreatePrincipal() returns (p: nat)
      modifies this
      ensures p == old(|principals|)
      ensures View() == old(View()).(principals := old(principals) + [Principal(true, 0)])
    {
      p := |principals|;
      principals := principals + [Principal(true, 0)];
    }

    method IssueToken(principal: nat, tenant: nat, expiresAt: Option<Time>) returns (r: Result<nat, Refusal>)
      modifies this
      ensures match Issued(old(View()), principal, tenant, expiresAt)
              case Failure(e) => r == Failure(e) && View() == old(View())
              case Success(db) => r == Success(old(|tokens|)) && View() == db
    {
      var version := if principal < |principals| then principals[principal].version else 0;
      if principal >= |principals| { return Failure(ForeignKey); }
      r := Success(|tokens|);
      tokens := tokens + [Token(principal, tenant, expiresAt, None, version)];
    }

    method RevokeToken(i: nat, now: Time) returns (revoked: bool)
      modifies this
      ensures View() == TokenRevokedAt(old(View()), i, now)
      ensures revoked <==> View() != old(View())
    {
      revoked := i < |tokens| && tokens[i].revokedAt.None?;
      if revoked {
        tokens := tokens[i := tokens[i].(revokedAt := Some(now))];
        assert tokens[i] != old(tokens[i]);
      }
    }

    method BumpVersions(who: set<nat>)
      modifies this
      ensures View() == old(View()).(principals := Bumped(old(principals), who))
    {
      principals := Bumped(principals, who);
    }

    method SetTenantStatus(t: nat, status: TenantStatus)
      modifies this
      ensures View() == WithTenantStatus(old(View()), t, status)
    {
      if t in tenants { tenants := tenants[t := tenants[t].(status := status)]; }
    }

    method Create(name: string, admin: nat, t: nat) returns (r: Result<nat, Refusal>)
      modifies this
      ensures match Created(old(View()), name, admin, t)
              case Failure(e) => r == Failure(e) && View() == old(View())
              case Success(db) => r == Success(t) && View() == db
    {
      if exists x | x in tenants :: tenants[x].name == name { return Failure(NameExists); }
      if admin >= |principals| { return Failure(AdminNotFound); }
      memberships := memberships + [Membership(admin, t, JOINED, None)];
      tenants := tenants[t := Tenant(name, ACTIVE)];
      BumpVersions({admin});
      r := Success(t);
    }

    method Suspend(t: nat)
      modifies this
      ensures View() == Suspended(old(View()), t)
    {
      SetTenantStatus(t, SUSPENDED);
      BumpVersions(Members(View(), t));
    }

    method Resume(t: nat)
      modifies this
      ensures View() == Resumed(old(View()), t)
    {
      SetTenantStatus(t, ACTIVE);
    }

    method Archive(t: nat, now: Time)
      modifies this
      ensures View() == Archived(old(View()), t, now)
    {
      SetTenantStatus(t, ARCHIVED);
      memberships := AllRevoked(memberships, t, now);
      assert Members(View(), t) == Members(old(View()), t) by {
        forall p | p in Members(old(View()), t) ensures p in Members(View(), t) {
          var i :| 0 <= i < |old(memberships)| && old(memberships)[i].tenant == t && old(memberships)[i].principal == p;
          assert memberships[i].principal == p;
        }
      }
      BumpVersions(Members(View(), t));
    }

    method AddMembership(t: nat, principal: nat, inviter: nat) returns (r: Result<(), Refusal>)
      modifies this
      ensures match MemberAdded(old(View()), t, principal, inviter)
              case Failure(e) => r == Failure(e) && View() == old(View())
              case Success(db) => r == Success(()) && View() == db
    {
      var existing := FindMembership(memberships, principal, t);
      if existing.Some? {
        var i := existing.value;
        memberships := memberships[i := memberships[i].(status := JOINED, revokedAt := None)];
      } else {
        if principal >= |principals| || inviter >= |principals| { return Failure(ForeignKey); }
        memberships := memberships + [Membership(principal, t, JOINED, None)];
      }
      BumpVersions({principal});
      r := Success(());
    }

    method RevokeMembership(t: nat, m: nat, now: Time) returns (r: Result<(), Refusal>)
      modifies this
      ensures match MembershipRevoked(old(View()), t, m, now)
              case Failure(e) => r == Failure(e) && View() == old(View())
              case Success(db) => r == Success(()) && View() == db
    {
      if m >= |memberships| || memberships[m].tenant != t { return Failure(MembershipNotFound); }
      memberships := memberships[m := memberships[m].(status := REVOKED, revokedAt := Some(now))];
      BumpVersions({memberships[m].principal});
      r := Success(());
    }
  }
}
