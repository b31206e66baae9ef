/** Configuration revisions: at most one per scope is in force. */
module Configuration {
  import opened Wrappers

  datatype Value = Number(n: int) | Decimal(r: real) | Flag(b: bool) | Text(s: string) | Null
  type Values = map<string, Value>

  /** `Unset` is NULL; APPLYING is only ever written by an outside rollout controller. */
  datatype Rollout = Unset | ACTIVE | ROLLED_BACK | APPLYING

  /** A revision is identified by its position: rows are only appended, in the order of `created_at`. */
  datatype Revision = Revision(scope: string, values: Values, parent: Option<nat>, active: bool,
                               rolloutVersion: nat, rollout: Rollout)

  datatype Refusal = ImmutableKey | NotFound | RolloutInProgress

  // ---- the schema ----

  const PLATFORM := "platform"
  const TENANT := "tenant"

  function PlatformDefaults(): Values {
    map["job.default_timeout" := Number(3600), "job.default_retries" := Number(3),
        "memory.default_retention_days" := Number(90), "asset.max_size_mb" := Number(1024),
        "steward.auto_governance_enabled" := Flag(false), "steward.auto_action_level" := Text("observe")]
  }

  function TenantDefaults(): Values {
    map["job.max_concurrent" := Number(10), "job.max_cpu" := Decimal(4.0), "job.max_memory_mb" := Number(8192),
        "memory.retention_days" := Number(90), "asset.capacity_mb" := Number(10240)]
  }

  predicate Immutable(key: string) {
    key in {"tenant_id", "secret_permissions", "skill_trust_level", "network_egress"}
  }

  /** `scope.split(":")[0]`. */
  function Category(scope: string): (r: string)
    ensures r <= scope && ':' !in r
    ensures r != scope ==> scope[|r|] == ':'
  {
    if scope == "" || scope[0] == ':' then ""
    else
      var rest := Category(scope[1..]);
      assert scope == [scope[0]] + scope[1..];
      [scope[0]] + rest
  }

  function Defaults(category: string): Values {
    if category == PLATFORM then PlatformDefaults()
    else if category == TENANT then TenantDefaults()
    else map[]
  }

  // ---- reading ----

  /** `WHERE scope = ... AND is_active = TRUE ORDER BY created_at DESC LIMIT 1`. */
  function ActiveOf(revs: seq<Revision>, scope: string): (found: Option<nat>)
    ensures found.Some? ==> found.value < |revs| && revs[found.value].scope == scope && revs[found.value].active
    ensures found.None? ==> forall i | 0 <= i < |revs| && revs[i].scope == scope :: !revs[i].active
  {
    if revs == [] then None
    else
      var last := revs[|revs| - 1];
      if last.scope == scope && last.active then Some(|revs| - 1)
      else ActiveOf(revs[..|revs| - 1], scope)
  }

  /** The values `get(scope)` reports. */
  function Current(revs: seq<Revision>, scope: string): Values {
    match ActiveOf(revs, scope)
    case Some(r) => revs[r].values
    case None => Defaults(Category(scope))
  }

  datatype Answer = All(values: Values) | One(key: string, value: Value)

  /** An empty key counts as no key. */
  function Get(revs: seq<Revision>, scope: string, key: Option<string>): Answer {
    var values := Current(revs, scope);
    if key.None? || key.value == "" then All(values)
    else One(key.value, if key.value in values then values[key.value] else Null)
  }

  function Mutable(values: Values): Values {
    map k | k in values && !Immutable(k) :: values[k]
  }

  function ActiveValues(revs: seq<Revision>, scope: string): Values {
    match ActiveOf(revs, scope)
    case Some(r) => Mutable(revs[r].values)
    case None => map[]
  }

  function DefaultsByPrefix(scope: string): Values {
    (if PLATFORM <= scope then PlatformDefaults() else map[]) + (if TENANT <= scope then TenantDefaults() else map[])
  }

  function Effective(revs: seq<Revision>, scope: string): Values {
    DefaultsByPrefix(scope) + ActiveValues(revs, PLATFORM) + ActiveValues(revs, scope)
  }

  // ---- writing ----

  function WithKey(revs: seq<Revision>, scope: string, key: string, value: Value): Result<seq<Revision>, Refusal> {
    if Immutable(key) then Failure(ImmutableKey)
    else
      var values := Current(revs, scope)[key := value];
      Success(revs + [Revision(scope, values, ActiveOf(revs, scope), false, 0, Unset)])
  }

  function Deactivated(revs: seq<Revision>, scope: string): (post: seq<Revision>)
    ensures |post| == |revs|
    ensures forall i | 0 <= i < |revs| ::
              post[i] == if revs[i].scope == scope && revs[i].active
                         then revs[i].(active := false, rollout := ROLLED_BACK) else revs[i]
  {
    seq(|revs|, i requires 0 <= i < |revs| =>
      if revs[i].scope == scope && revs[i].active then revs[i].(active := false, rollout := ROLLED_BACK) else revs[i])
  }

  predicate InProgress(revs: seq<Revision>, scope: string) {
    exists i | 0 <= i < |revs| :: revs[i].scope == scope && revs[i].rollout == APPLYING
  }

  function Activated(revs: seq<Revision>, r: nat): Result<seq<Revision>, Refusal> {
    if r >= |revs| then Failure(NotFound)
    else if InProgress(revs, revs[r].scope) then Failure(RolloutInProgress)
    else
      var off := Deactivated(revs, revs[r].scope);
      Success(off[r := off[r].(active := true, rollout := ACTIVE, rolloutVersion := revs[r].rolloutVersion + 1)])
  }

  class ConfigurationService {
    var revs: seq<Revision>

    constructor ()
      ensures revs == []
    {
      revs := [];
    }

    method Set(scope: string, key: string, value: Value) returns (r: Result<nat, Refusal>)
      modifies this
      ensures match WithKey(old(revs), scope, key, value)
              case Failure(e) => r == Failure(e) && revs == old(revs)
              case Success(post) => r == Success(old(|revs|)) && revs == post
    {
      if Immutable(key) { return Failure(ImmutableKey); }
      var answer := Get(revs, scope, None);
      var values := answer.values[key := value];
      r := Success(|revs|);
      revs := revs + [Revision(scope, values, ActiveOf(revs, scope), false, 0, Unset)];
    }

    method Activate(id: nat) returns (r: Result<nat, Refusal>)
      modifies this
      ensures match Activated(old(revs), id)
              case Failure(e) => r == Failure(e) && revs == old(revs)
              case Success(post) => r == Success(old(revs)[id].rolloutVersion + 1) && revs == post
    {
      if id >= |revs| { return Failure(NotFound); }
      var row := revs[id];
      if InProgress(revs, row.scope) { return Failure(RolloutInProgress); }
      revs := Deactivated(revs, row.scope);
      var version := row.rolloutVersion + 1;
      revs := revs[id := revs[id].(active := true, rollout := ACTIVE, rolloutVersion := version)];
      r := Success(version);
    }

    method Rollback(id: nat) returns (r: Result<nat, Refusal>)
      modifies this
      ensures match Activated(old(revs), id)
              case Failure(e) => r == Failure(e) && revs == old(revs)
              case Success(post) => r == Success(old(revs)[id].rolloutVersion + 1) && revs == post
    {
      r := Activate(id);
    }

    method GetEffective(scope: string) returns (result: Values)
      ensures result == Effective(revs, scope)
    {
      result := map[];
      if PLATFORM <= scope { result := result + PlatformDefaults(); }
      if TENANT <= scope { result := result + TenantDefaults(); }
      assert result == DefaultsByPrefix(scope);
      result := Overlay(result, PLATFORM);
      result := Overlay(result, scope);
    }

    /** Copies the mutable keys of the scope's active revision over `base`, one at a time. */
    method Overlay(base: Values, scope: string) returns (result: Values)
      ensures result == base + ActiveValues(revs, scope)
    {
      result := base;
      var active := ActiveOf(revs, scope);
      if active.Some? {
        var values := revs[active.value].values;
        var keys := values.Keys;
        while keys != {}
          invariant keys <= values.Keys
          invariant forall k :: k in result <==> k in base || (k in values && k !in keys && !Immutable(k))
          invariant forall k | k in result ::
                      result[k] == if k in values && k !in keys && !Immutable(k) then values[k] else base[k]
          decreases |keys|
        {
          var k :| k in keys;
          if !Immutable(k) { result := result[k := values[k]]; }
          keys := keys - {k};
        }
        assert result == base + Mutable(values);
      }
    }
  }
}
