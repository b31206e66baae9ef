/** What the configuration keeps over every run. */
module ConfigurationSafety {
  import opened Wrappers
  import opened Configuration

  datatype Action =
    | Set(scope: string, key: string, value: Value)
    | Activate(id: nat)
    | Rollback(id: nat)
    /** Creating a tenant inserts an active revision for its new scope. */
    | CreateTenant(scope: string, template: string)
    /** An outside rollout controller moves a revision's rollout status. */
    | Controller(id: nat, rollout: Rollout)

  function After(revs: seq<Revision>, a: Action): seq<Revision> {
    match a
    case Set(scope, key, value) => OrSame(revs, WithKey(revs, scope, key, value))
    case Activate(id) => OrSame(revs, Activated(revs, id))
    case Rollback(id) => OrSame(revs, Activated(revs, id))
    case CreateTenant(scope, template) =>
      revs + [Revision(scope, map["template" := Text(template)], None, true, 0, Unset)]
    case Controller(id, rollout) => if id < |revs| then revs[id := revs[id].(rollout := rollout)] else revs
  }

  /** The scope of a new tenant is made from its fresh id. */
  predicate Enabled(revs: seq<Revision>, a: Action) {
    a.CreateTenant? ==> forall i | 0 <= i < |revs| :: revs[i].scope != a.scope
  }

  ghost predicate IsRun(states: seq<seq<Revision>>, actions: seq<Action>) {
    && |states| == |actions| + 1
    && states[0] == []
    && forall i | 0 <= i < |actions| :: Enabled(states[i], actions[i]) && states[i + 1] == After(states[i], actions[i])
  }

  ghost predicate OneActive(revs: seq<Revision>) {
    forall i, k | 0 <= i < |revs| && 0 <= k < |revs| && revs[i].active && revs[k].active
                  && revs[i].scope == revs[k].scope ::
      i == k
  }

  predicate AllMutable(values: Values) {
    forall k | k in values :: !Immutable(k)
  }

  ghost predicate Inv(revs: seq<Revision>) {
    OneActive(revs) && forall i | 0 <= i < |revs| :: AllMutable(revs[i].values)
  }

  lemma DefaultsMutable(category: string)
    ensures AllMutable(Defaults(category))
  {
  }

  lemma CurrentMutable(revs: seq<Revision>, scope: string)
    requires Inv(revs)
    ensures AllMutable(Current(revs, scope))
  {
    DefaultsMutable(Category(scope));
  }

  lemma ActivationKeepsOne(revs: seq<Revision>, r: nat)
    requires OneActive(revs) && Activated(revs, r).Success?
    ensures OneActive(Activated(revs, r).value)
  {
  }

  lemma StepKeeps(revs: seq<Revision>, a: Action)
    requires Inv(revs) && Enabled(revs, a)
    ensures Inv(After(revs, a))
  {
    match a {
      case Set(scope, key, value) => CurrentMutable(revs, scope);
      case CreateTenant(_, _) => assert !Immutable("template");
      case Activate(id) => if Activated(revs, id).Success? { ActivationKeepsOne(revs, id); }
      case Rollback(id) => if Activated(revs, id).Success? { ActivationKeepsOne(revs, id); }
      case Controller(_, _) =>
    }
  }

  /** In every reachable state each scope has at most one active revision and no revision holds an immutable key. */
  lemma {:induction false} RunIsSafe(states: seq<seq<Revision>>, actions: seq<Action>, k: nat)
    requires IsRun(states, actions) && k < |states|
    ensures OneActive(states[k])
    ensures forall i | 0 <= i < |states[k]| :: AllMutable(states[k][i].values)
  {
    if k > 0 {
      RunIsSafe(states, actions, k - 1);
      StepKeeps(states[k - 1], actions[k - 1]);
    }
  }

  // ---- rows keep their scope and values ----

  ghost predicate RowsKept(revs: seq<Revision>, post: seq<Revision>) {
    |revs| <= |post| && forall i | 0 <= i < |revs| :: post[i].scope == revs[i].scope && post[i].values == revs[i].values
  }

  lemma {:induction false} RunKeepsRows(states: seq<seq<Revision>>, actions: seq<Action>, j: nat, k: nat)
    requires IsRun(states, actions) && j <= k < |states|
    ensures RowsKept(states[j], states[k])
    decreases k
  {
    if j < k {
      RunKeepsRows(states, actions, j, k - 1);
      assert RowsKept(states[k - 1], After(states[k - 1], actions[k - 1]));
    }
  }

  // ---- when a call is refused ----

  /** A key can be set exactly when it is not one of the four immutable ones; the revision set is not in force. */
  lemma SetDecision(revs: seq<Revision>, scope: string, key: string, value: Value)
    ensures WithKey(revs, scope, key, value).Success? <==>
            key != "tenant_id" && key != "secret_permissions" && key != "skill_trust_level" && key != "network_egress"
    ensures WithKey(revs, scope, key, value).Success? ==>
            var post := WithKey(revs, scope, key, value).value;
            && |post| == |revs| + 1 && post[..|revs|] == revs
            && var r := post[|revs|];
               && r.scope == scope && !r.active && r.rolloutVersion == 0 && r.rollout == Unset
               && key in r.values && r.values[key] == value
               && (forall k | k in r.values && k != key ::
                     k in Current(revs, scope) && r.values[k] == Current(revs, scope)[k])
               && (forall k | k in Current(revs, scope) :: k in r.values)
               && match r.parent
                  case Some(p) => p < |revs| && revs[p].scope == scope && revs[p].active
                  case None => forall i | 0 <= i < |revs| && revs[i].scope == scope :: !revs[i].active
  {
  }

  /** A revision can be activated exactly when it exists and no revision of its scope is being rolled out. */
  lemma ActivationDecision(revs: seq<Revision>, r: nat)
    ensures Activated(revs, r).Success? <==>
            r < |revs| && forall i | 0 <= i < |revs| && revs[i].scope == revs[r].scope :: revs[i].rollout != APPLYING
    ensures r >= |revs| ==> Activated(revs, r) == Failure(NotFound)
    ensures r < |revs| && Activated(revs, r).Failure? ==> Activated(revs, r) == Failure(RolloutInProgress)
  {
  }

  /** It then is the active one of its scope; the one it replaces is marked as rolled back, no other row changes. */
  lemma ActivationRows(revs: seq<Revision>, r: nat)
    requires Activated(revs, r).Success?
    ensures var post := Activated(revs, r).value;
            && |post| == |revs|
            && post[r] == revs[r].(active := true, rollout := ACTIVE, rolloutVersion := revs[r].rolloutVersion + 1)
            && forall i: nat | i < |revs| && i != r ::
                 post[i] == if revs[i].scope == revs[r].scope && revs[i].active
                            then revs[i].(active := false, rollout := ROLLED_BACK) else revs[i]
  {
  }

  // ---- activation ----

  /** Where at most one revision of a scope is active, that one is found. */
  lemma ActiveIs(revs: seq<Revision>, r: nat)
    requires OneActive(revs) && r < |revs| && revs[r].active
    ensures ActiveOf(revs, revs[r].scope) == Some(r)
  {
  }

  lemma {:induction false} ActiveElsewhere(revs: seq<Revision>, post: seq<Revision>, scope: string)
    requires |revs| == |post|
    requires forall i | 0 <= i < |revs| ::
               && post[i].scope == revs[i].scope && post[i].values == revs[i].values
               && (revs[i].scope == scope ==> post[i].active == revs[i].active)
    ensures ActiveOf(post, scope) == ActiveOf(revs, scope)
  {
    if revs != [] { ActiveElsewhere(revs[..|revs| - 1], post[..|post| - 1], scope); }
  }

  /** Activating a revision puts its values in force in its scope and changes no other scope. */
  lemma ActivationTakesEffect(revs: seq<Revision>, r: nat, scope: string)
    requires Inv(revs) && Activated(revs, r).Success?
    ensures var post := Activated(revs, r).value;
            Current(post, scope) == if scope == revs[r].scope then revs[r].values else Current(revs, scope)
  {
    var post := Activated(revs, r).value;
    StepKeeps(revs, Activate(r));
    if scope == revs[r].scope { ActiveIs(post, r); } else { ActiveElsewhere(revs, post, scope); }
  }

  predicate Activates(a: Action, r: nat) {
    (a.Activate? || a.Rollback?) && a.id == r
  }

  /**
   Setting a key and activating the resulting revision, whatever happens in between, makes the scope's
   values those at the time of the set with exactly that key changed, and changes no other scope.
   */
  lemma SetThenActivate(states: seq<seq<Revision>>, actions: seq<Action>, j: nat, k: nat)
    requires IsRun(states, actions) && j < k < |actions|
    requires actions[j].Set? && !Immutable(actions[j].key)
    requires Activates(actions[k], |states[j]|) && Activated(states[k], |states[j]|).Success?
    ensures var a := actions[j];
            && Current(states[k + 1], a.scope) == Current(states[j], a.scope)[a.key := a.value]
            && forall other | other != a.scope :: Current(states[k + 1], other) == Current(states[k], other)
  {
    RunIsSafe(states, actions, k);
    RunKeepsRows(states, actions, j + 1, k);
    var a, r, now := actions[j], |states[j]|, states[k];
    assert states[j + 1] == After(states[j], a);
    assert states[j + 1][r].scope == a.scope
        && states[j + 1][r].values == Current(states[j], a.scope)[a.key := a.value];
    assert now[r].scope == a.scope && now[r].values == states[j + 1][r].values;
    assert states[k + 1] == Activated(now, r).value;
    ActivationTakesEffect(now, r, a.scope);
    forall other | other != a.scope ensures Current(states[k + 1], other) == Current(states[k], other) {
      ActivationTakesEffect(now, r, other);
    }
  }

  /** Rolling back to a revision restores the values the scope had while it was active. */
  lemma RollbackRestores(states: seq<seq<Revision>>, actions: seq<Action>, j: nat, k: nat, r: nat)
    requires IsRun(states, actions) && j <= k < |actions|
    requires r < |states[j]| && states[j][r].active
    requires Activates(actions[k], r) && Activated(states[k], r).Success?
    ensures Current(states[k + 1], states[j][r].scope) == Current(states[j], states[j][r].scope)
  {
    RunIsSafe(states, actions, j);
    RunIsSafe(states, actions, k);
    RunKeepsRows(states, actions, j, k);
    ActiveIs(states[j], r);
    ActivationTakesEffect(states[k], r, states[j][r].scope);
  }

  /** How often a revision has been activated in the first k steps. */
  function Activations(states: seq<seq<Revision>>, actions: seq<Action>, r: nat, k: nat): nat
    requires |states| == |actions| + 1 && k <= |actions|
  {
    if k == 0 then 0
    else Activations(states, actions, r, k - 1)
         + if Activates(actions[k - 1], r) && Activated(states[k - 1], r).Success? then 1 else 0
  }

  function Version(revs: seq<Revision>, r: nat): nat {
    if r < |revs| then revs[r].rolloutVersion else 0
  }

  lemma VersionAfter(revs: seq<Revision>, a: Action, r: nat)
    ensures Version(After(revs, a), r)
         == Version(revs, r) + if Activates(a, r) && Activated(revs, r).Success? then 1 else 0
  {
  }

  /** A revision's rollout version counts its activations. */
  lemma {:induction false} VersionCountsActivations(states: seq<seq<Revision>>, actions: seq<Action>, r: nat, k: nat)
    requires IsRun(states, actions) && k < |states|
    ensures Version(states[k], r) == Activations(states, actions, r, k)
  {
    if k > 0 {
      VersionCountsActivations(states, actions, r, k - 1);
      VersionAfter(states[k - 1], actions[k - 1], r);
    }
  }

  // ---- what is answered ----

  lemma CategoryIsHead(head: string, id: string)
    requires ':' !in head
    ensures Category(head) == head && Category(head + ":" + id) == head
  {
    var scope := head + ":" + id;
    assert scope[|head|] == ':' && scope[..|head|] == head;
    var c := Category(scope);
    assert |c| <= |head|;
    assert c == scope[..|c|];
  }

  /** Without a revision in force a scope has the documented defaults of the part before its first colon. */
  lemma DefaultsInForce(id: string)
    ensures Current([], "platform") == map[
              "job.default_timeout" := Number(3600), "job.default_retries" := Number(3),
              "memory.default_retention_days" := Number(90), "asset.max_size_mb" := Number(1024),
              "steward.auto_governance_enabled" := Flag(false), "steward.auto_action_level" := Text("observe")]
    ensures Current([], "tenant:" + id) == map[
              "job.max_concurrent" := Number(10), "job.max_cpu" := Decimal(4.0), "job.max_memory_mb" := Number(8192),
              "memory.retention_days" := Number(90), "asset.capacity_mb" := Number(10240)]
    ensures Current([], "user:" + id) == map[]
  {
    hide Category;
    CategoryIsHead("platform", id);
    CategoryIsHead("tenant", id);
    CategoryIsHead("user", id);
    assert "tenant" + ":" + id == "tenant:" + id && "user" + ":" + id == "user:" + id;
  }

  /**
   Once a key was set and its revision activated, asking for that key answers the value set, asking for
   another answers as before the set, and asking for none answers them all.
   */
  lemma SetIsAnswered(states: seq<seq<Revision>>, actions: seq<Action>, j: nat, k: nat, other: string)
    requires IsRun(states, actions) && j < k < |actions|
    requires actions[j].Set? && !Immutable(actions[j].key) && actions[j].key != "" && other != actions[j].key
    requires Activates(actions[k], |states[j]|) && Activated(states[k], |states[j]|).Success?
    ensures var a, post := actions[j], states[k + 1];
            && Get(post, a.scope, Some(a.key)) == One(a.key, a.value)
            && Get(post, a.scope, None) == Get(post, a.scope, Some("")) == All(Current(post, a.scope))
            && var was := Current(states[j], a.scope);
               other != "" ==> Get(post, a.scope, Some(other)) == One(other, if other in was then was[other] else Null)
  {
    SetThenActivate(states, actions, j, k);
  }

  // ---- the effective configuration ----

  /** Keys come from the scope's active revision, then the platform's, then the defaults. */
  lemma EffectiveAgreesWithActive(states: seq<seq<Revision>>, actions: seq<Action>, n: nat,
                                  scope: string, r: nat, k: string)
    requires IsRun(states, actions) && n < |states|
    requires ActiveOf(states[n], scope) == Some(r) && k in states[n][r].values
    ensures var e := Effective(states[n], scope); k in e && e[k] == states[n][r].values[k]
  {
    RunIsSafe(states, actions, n);
    assert AllMutable(states[n][r].values);
  }

  lemma DefaultsCovered(scope: string)
    ensures forall k | k in Defaults(Category(scope)) ::
              k in DefaultsByPrefix(scope) && DefaultsByPrefix(scope)[k] == Defaults(Category(scope))[k]
  {
  }

  /**
   On a key that `get` reports, `get_effective` reports the same value, unless the scope has no active
   revision and the platform's active revision says otherwise.
   */
  lemma EffectiveAgreesWithGet(states: seq<seq<Revision>>, actions: seq<Action>, n: nat, scope: string, k: string)
    requires IsRun(states, actions) && n < |states| && k in Current(states[n], scope)
    ensures k in Effective(states[n], scope)
    ensures Effective(states[n], scope)[k] == Current(states[n], scope)[k]
            <==> var platform := ActiveOf(states[n], PLATFORM);
                 || ActiveOf(states[n], scope).Some? || platform.None?
                 || k !in states[n][platform.value].values
                 || states[n][platform.value].values[k] == Defaults(Category(scope))[k]
  {
    RunIsSafe(states, actions, n);
    DefaultsCovered(scope);
    var active, platform := ActiveOf(states[n], scope), ActiveOf(states[n], PLATFORM);
    if active.Some? {
      EffectiveAgreesWithActive(states, actions, n, scope, active.value, k);
    } else if platform.Some? {
      assert AllMutable(states[n][platform.value].values);
    }
  }
}
