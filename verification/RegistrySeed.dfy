/** Seeding the registry from the configuration file, and why doing it twice changes nothing. */
module RegistrySeed {
  import opened Wrappers
  import opened ModelRegistry
  import opened RegistryCoherence

  // ---- the configuration: every key that may be missing has a default ----

  datatype ProviderCfg = ProviderCfg(name: string, ptype: Option<string>, baseUrl: Option<string>,
                                     apiKey: Option<string>)
  datatype LlmProviderCfg = LlmProviderCfg(provider: ProviderCfg, priority: Option<int>, modelIds: seq<string>)
  datatype ModelCfg = ModelCfg(name: string, mtype: Option<ModelType>, provider: Option<string>, source: Option<Source>,
                               priority: Option<int>)
  datatype EmbeddingCfg = EmbeddingCfg(enabled: bool, model: Option<string>, provider: Option<string>, dim: Option<int>,
                                       cacheDir: Option<string>)
  datatype AsrCfg = AsrCfg(enabled: bool, modelAlias: Option<string>, provider: Option<string>, path: Option<string>,
                           config: string)
  datatype Config = Config(providers: seq<ProviderCfg>, llmProviders: seq<LlmProviderCfg>, models: seq<ModelCfg>,
                           embedding: EmbeddingCfg, asr: AsrCfg)

  const DEFAULT_EMBEDDING := "jinaai/jina-embeddings-v2-base-zh"
  const EMBEDDING_ALIAS := "jina-embeddings-v2-base-zh"

  function ProviderOf(c: ProviderCfg): NewProvider {
    NewProvider(c.name, Or(c.ptype, "openai"), Or(c.baseUrl, ""), Or(c.apiKey, ""), true)
  }

  function ModelOf(c: ModelCfg): Model {
    Model(c.name, Or(c.mtype, Chat), Or(c.provider, ""), None, Or(c.source, External), Some(""), "{}", None,
          Or(c.priority, 100), true)
  }

  function LlmModelOf(c: LlmProviderCfg, id: string): Model {
    Model(id, Chat, c.provider.name, None, External, Some(""), "{}", None, Or(c.priority, 100), true)
  }

  function EmbeddingOf(c: EmbeddingCfg, name: string): Model {
    Model(name, Embedding, Or(c.provider, "fastembed"), None, Local, c.cacheDir, "{}", Some(Or(c.dim, 768)), 1, true)
  }

  function AsrOf(c: AsrCfg): Model {
    Model(Or(c.modelAlias, "whisper-small"), Asr, Or(c.provider, "faster-whisper"), None, Local,
          Some(Or(c.path, "")), c.config, None, 1, true)
  }

  // ---- one wanted row ----

  /** A wanted provider, or a wanted model with the name of the provider it is to reference, "" for none. */
  datatype Item = WantProvider(provider: NewProvider) | WantModel(model: Model, under: string)

  /** The state and the counters that are returned. */
  datatype Counts = Counts(providers: nat, models: nat, profiles: nat)
  datatype Seeding = Seeding(s: State, n: Counts)

  function FindProvider(providers: Providers, name: string, n: nat): (found: Option<nat>)
    ensures found.Some? ==> found.value in providers && providers[found.value].name == name
    ensures found.None? ==> forall id | id in providers && id < n :: providers[id].name != name
  {
    if n == 0 then None
    else if n - 1 in providers && providers[n - 1].name == name then Some(n - 1)
    else FindProvider(providers, name, n - 1)
  }

  function ProviderIdOf(s: State, name: string): Option<nat> {
    if name == "" then None else FindProvider(s.providers, name, s.nextId)
  }

  /** Is the row there already? An unnamed provider is skipped as if it were. */
  predicate Present(s: State, item: Item) {
    match item
    case WantProvider(p) => p.name == "" || ProviderNamed(s.providers, p.name)
    case WantModel(m, _) => ModelNamed(s.models, m.name)
  }

  function Ensured(z: Seeding, item: Item): Seeding {
    if Present(z.s, item) then z
    else
      match item
      case WantProvider(p) => Seeding(ProviderCreated(z.s, p).value, z.n.(providers := z.n.providers + 1))
      case WantModel(m, under) =>
        Seeding(ModelCreated(z.s, m.(providerId := ProviderIdOf(z.s, under))).value, z.n.(models := z.n.models + 1))
  }

  function AllEnsured(z: Seeding, items: seq<Item>): Seeding {
    if items == [] then z else Ensured(AllEnsured(z, items[..|items| - 1]), items[|items| - 1])
  }

  // ---- what the configuration asks for, in order ----

  /** Every wanted model is wanted enabled. */
  predicate AskEnabled(items: seq<Item>) {
    forall i | 0 <= i < |items| && items[i].WantModel? :: items[i].model.enabled
  }

  function ProviderItems(cs: seq<ProviderCfg>): (items: seq<Item>)
    ensures AskEnabled(items)
  {
    if cs == [] then [] else ProviderItems(cs[..|cs| - 1]) + [WantProvider(ProviderOf(cs[|cs| - 1]))]
  }

  function LlmProviderItems(cs: seq<LlmProviderCfg>): (items: seq<Item>)
    ensures AskEnabled(items)
  {
    if cs == [] then [] else LlmProviderItems(cs[..|cs| - 1]) + [WantProvider(ProviderOf(cs[|cs| - 1].provider))]
  }

  function ModelItems(cs: seq<ModelCfg>): (items: seq<Item>)
    ensures AskEnabled(items)
  {
    if cs == [] then []
    else ModelItems(cs[..|cs| - 1]) + [WantModel(ModelOf(cs[|cs| - 1]), Or(cs[|cs| - 1].provider, ""))]
  }

  function IdItems(c: LlmProviderCfg, ids: seq<string>): (items: seq<Item>)
    ensures AskEnabled(items)
  {
    if ids == [] then [] else IdItems(c, ids[..|ids| - 1]) + [WantModel(LlmModelOf(c, ids[|ids| - 1]), c.provider.name)]
  }

  function LlmModelItems(cs: seq<LlmProviderCfg>): (items: seq<Item>)
    ensures AskEnabled(items)
  {
    if cs == [] then [] else LlmModelItems(cs[..|cs| - 1]) + IdItems(cs[|cs| - 1], cs[|cs| - 1].modelIds)
  }

  function EmbeddingItems(c: EmbeddingCfg): (items: seq<Item>)
    ensures AskEnabled(items)
  {
    var name := Or(c.model, DEFAULT_EMBEDDING);
    if !c.enabled then []
    else [WantModel(EmbeddingOf(c, name), "")]
         + if EMBEDDING_ALIAS != name then [WantModel(EmbeddingOf(c, EMBEDDING_ALIAS), "")] else []
  }

  function AsrItems(c: AsrCfg): (items: seq<Item>)
    ensures AskEnabled(items)
  {
    if c.enabled then [WantModel(AsrOf(c), "")] else []
  }

  function Items(cfg: Config): (items: seq<Item>)
    ensures AskEnabled(items)
  {
    ProviderItems(cfg.providers) + LlmProviderItems(cfg.llmProviders) + ModelItems(cfg.models)
    + LlmModelItems(cfg.llmProviders) + EmbeddingItems(cfg.embedding) + AsrItems(cfg.asr)
  }

  // ---- default profiles ----

  /** The model of that type that comes first in the listing by priority and age. */
  function FirstOfType(models: Models, t: ModelType, n: nat): (found: Option<nat>)
    ensures found.Some? ==>
      && found.value in models && found.value < n && models[found.value].mtype == t
      && forall id | id in models && id < n && models[id].mtype == t ::
           var best := models[found.value].priority;
           best < models[id].priority || (best == models[id].priority && found.value <= id)
    ensures found.None? ==> forall id | id in models && id < n :: models[id].mtype != t
  {
    if n == 0 then None
    else
      var rest := FirstOfType(models, t, n - 1);
      if n - 1 in models && models[n - 1].mtype == t
         && (rest.None? || models[n - 1].priority < models[rest.value].priority)
      then Some(n - 1) else rest
  }

  /** `resolve_profile(name)` without a tenant finds something. */
  predicate Resolves(s: State, name: string) {
    exists p | p in s.profiles :: s.profiles[p].name == name && s.profiles[p].tenant.None?
                                  && s.profiles[p].model in s.models && s.models[s.profiles[p].model].enabled
  }

  /** How far it came, and the error that stopped it, if any. */
  datatype Tried = Tried(z: Seeding, error: Option<Refusal>)

  function ProfileEnsured(z: Seeding, name: string, t: ModelType): Tried {
    var first := FirstOfType(z.s.models, t, z.s.nextId);
    if first.None? || Resolves(z.s, name) then Tried(z, None)
    else
      match ProfileCreated(z.s, Profile(name, t, first.value, None, None))
      case Failure(e) => Tried(z, Some(e))
      case Success(post) => Tried(Seeding(post, z.n.(profiles := z.n.profiles + 1)), None)
  }

  function ThenProfile(r: Tried, name: string, t: ModelType): Tried {
    if r.error.Some? then r else ProfileEnsured(r.z, name, t)
  }

  function ProfilesEnsured(z: Seeding): Tried {
    ThenProfile(ThenProfile(ThenProfile(ThenProfile(ThenProfile(Tried(z, None), "default-chat", Chat),
      "default-embedding", Embedding), "default-asr", Asr), "meeting-asr", Asr), "default", Chat)
  }

  function Seeded(s: State, cfg: Config): Tried {
    ProfilesEnsured(AllEnsured(Seeding(s, Counts(0, 0, 0)), Items(cfg)))
  }

  // ---- the call itself ----

  lemma {:induction false} EnsuredInTurn(z: Seeding, front: seq<Item>, rest: seq<Item>)
    ensures AllEnsured(z, front + rest) == AllEnsured(AllEnsured(z, front), rest)
  {
    if rest == [] {
      assert front + rest == front;
    } else {
      var n := |rest| - 1;
      EnsuredInTurn(z, front, rest[..n]);
      assert (front + rest)[..|front| + n] == front + rest[..n];
    }
  }

  ghost predicate Fresh(s: State) {
    (forall id | id in s.providers :: id < s.nextId) && (forall id | id in s.models :: id < s.nextId)
  }

  lemma {:induction false} StaysFresh(z: Seeding, items: seq<Item>)
    requires Fresh(z.s)
    ensures Fresh(AllEnsured(z, items).s)
  {
    if items != [] { StaysFresh(z, items[..|items| - 1]); }
  }

  lemma {:induction false} FindBeyond(providers: Providers, name: string, n: nat, n': nat)
    requires n <= n' && forall id | id in providers :: id < n
    ensures FindProvider(providers, name, n') == FindProvider(providers, name, n)
  {
    if n < n' { FindBeyond(providers, name, n, n' - 1); }
  }

  /** Wanting models never touches the providers. */
  lemma {:induction false} IdItemsKeepProviders(z: Seeding, c: LlmProviderCfg, ids: seq<string>)
    requires Fresh(z.s)
    ensures var s := AllEnsured(z, IdItems(c, ids)).s; s.providers == z.s.providers && s.nextId >= z.s.nextId
    ensures ProviderIdOf(AllEnsured(z, IdItems(c, ids)).s, c.provider.name) == ProviderIdOf(z.s, c.provider.name)
  {
    if ids != [] {
      var n := |ids| - 1;
      IdItemsKeepProviders(z, c, ids[..n]);
    }
    FindBeyond(z.s.providers, c.provider.name, z.s.nextId, AllEnsured(z, IdItems(c, ids)).s.nextId);
  }

  method EnsureProvider(registry: Registry, p: NewProvider, n: Counts) returns (n': Counts)
    modifies registry
    ensures Seeding(registry.View(), n') == Ensured(Seeding(old(registry.View()), n), WantProvider(p))
  {
    n' := n;
    if p.name == "" || ProviderNamed(registry.providers, p.name) { return; }
    var _ := registry.CreateProvider(p);
    n' := n.(providers := n.providers + 1);
  }

  method EnsureModel(registry: Registry, m: Model, under: string, n: Counts) returns (n': Counts)
    modifies registry, registry.gateway, registry.embedding, registry.asr
    ensures Seeding(registry.View(), n') == Ensured(Seeding(old(registry.View()), n), WantModel(m, under))
  {
    n' := EnsureModelOf(registry, m, under, ProviderIdOf(registry.View(), under), n);
  }

  /** The provider was looked up before. */
  method EnsureModelOf(registry: Registry, m: Model, ghost under: string, id: Option<nat>, n: Counts)
    returns (n': Counts)
    requires id == ProviderIdOf(registry.View(), under)
    modifies registry, registry.gateway, registry.embedding, registry.asr
    ensures Seeding(registry.View(), n') == Ensured(Seeding(old(registry.View()), n), WantModel(m, under))
  {
    n' := n;
    if ModelNamed(registry.models, m.name) { return; }
    var _ := registry.CreateModel(m.(providerId := id));
    n' := n.(models := n.models + 1);
  }

  method EnsureProfile(registry: Registry, name: string, t: ModelType, n: Counts) returns (r: Result<Counts, Refusal>)
    modifies registry
    ensures var o := ProfileEnsured(Seeding(old(registry.View()), n), name, t);
            && registry.View() == o.z.s
            && r == if o.error.Some? then Failure(o.error.value) else Success(o.z.n)
  {
    var first := FirstOfType(registry.models, t, registry.nextId);
    if first.None? || Resolves(registry.View(), name) { return Success(n); }
    var created := registry.CreateProfile(Profile(name, t, first.value, None, None));
    if created.Failure? { return Failure(created.error); }
    return Success(n.(profiles := n.profiles + 1));
  }

  method SeedProviders(registry: Registry, cfg: Config, n: Counts) returns (n': Counts)
    modifies registry
    ensures Seeding(registry.View(), n')
         == AllEnsured(AllEnsured(Seeding(old(registry.View()), n), ProviderItems(cfg.providers)),
                       LlmProviderItems(cfg.llmProviders))
  {
    hide Ensured, ProviderIdOf;
    ghost var z := Seeding(registry.View(), n);
    n' := n;
    for i := 0 to |cfg.providers|
      invariant Seeding(registry.View(), n') == AllEnsured(z, ProviderItems(cfg.providers[..i]))
    {
      assert cfg.providers[..i + 1][..i] == cfg.providers[..i];
      n' := EnsureProvider(registry, ProviderOf(cfg.providers[i]), n');
    }
    assert cfg.providers[..|cfg.providers|] == cfg.providers;
    ghost var z' := AllEnsured(z, ProviderItems(cfg.providers));
    for i := 0 to |cfg.llmProviders|
      invariant Seeding(registry.View(), n') == AllEnsured(z', LlmProviderItems(cfg.llmProviders[..i]))
    {
      assert cfg.llmProviders[..i + 1][..i] == cfg.llmProviders[..i];
      n' := EnsureProvider(registry, ProviderOf(cfg.llmProviders[i].provider), n');
    }
    assert cfg.llmProviders[..|cfg.llmProviders|] == cfg.llmProviders;
  }

  method SeedListedModels(registry: Registry, cfg: Config, n: Counts) returns (n': Counts)
    modifies registry, registry.gateway, registry.embedding, registry.asr
    ensures Seeding(registry.View(), n') == AllEnsured(Seeding(old(registry.View()), n), ModelItems(cfg.models))
  {
    hide Ensured, ProviderIdOf;
    ghost var z := Seeding(registry.View(), n);
    n' := n;
    for i := 0 to |cfg.models|
      invariant Seeding(registry.View(), n') == AllEnsured(z, ModelItems(cfg.models[..i]))
    {
      assert cfg.models[..i + 1][..i] == cfg.models[..i];
      n' := EnsureModel(registry, ModelOf(cfg.models[i]), Or(cfg.models[i].provider, ""), n');
    }
    assert cfg.models[..|cfg.models|] == cfg.models;
  }

  /** The provider is looked up once, before its models. */
  method SeedModelsUnder(registry: Registry, c: LlmProviderCfg, n: Counts) returns (n': Counts)
    requires Fresh(registry.View())
    modifies registry, registry.gateway, registry.embedding, registry.asr
    ensures Seeding(registry.View(), n') == AllEnsured(Seeding(old(registry.View()), n), IdItems(c, c.modelIds))
  {
    hide Ensured, ProviderIdOf;
    ghost var z := Seeding(registry.View(), n);
    var providerId := ProviderIdOf(registry.View(), c.provider.name);
    n' := n;
    for i := 0 to |c.modelIds|
      invariant Seeding(registry.View(), n') == AllEnsured(z, IdItems(c, c.modelIds[..i]))
    {
      assert c.modelIds[..i + 1][..i] == c.modelIds[..i];
      IdItemsKeepProviders(z, c, c.modelIds[..i]);
      n' := EnsureModelOf(registry, LlmModelOf(c, c.modelIds[i]), c.provider.name, providerId, n');
    }
    assert c.modelIds[..|c.modelIds|] == c.modelIds;
  }

  method SeedLlmModels(registry: Registry, cfg: Config, n: Counts) returns (n': Counts)
    requires Fresh(registry.View())
    modifies registry, registry.gateway, registry.embedding, registry.asr
    ensures Seeding(registry.View(), n')
         == AllEnsured(Seeding(old(registry.View()), n), LlmModelItems(cfg.llmProviders))
  {
    hide Ensured, ProviderIdOf;
    ghost var z := Seeding(registry.View(), n);
    n' := n;
    var cs := cfg.llmProviders;
    for i := 0 to |cs|
      invariant Seeding(registry.View(), n') == AllEnsured(z, LlmModelItems(cs[..i]))
    {
      assert cs[..i + 1][..i] == cs[..i];
      EnsuredInTurn(z, LlmModelItems(cs[..i]), IdItems(cs[i], cs[i].modelIds));
      StaysFresh(z, LlmModelItems(cs[..i]));
      n' := SeedModelsUnder(registry, cs[i], n');
    }
    assert cs[..|cs|] == cs;
  }

  method SeedBuiltIn(registry: Registry, cfg: Config, n: Counts) returns (n': Counts)
    modifies registry, registry.gateway, registry.embedding, registry.asr
    ensures Seeding(registry.View(), n')
         == AllEnsured(AllEnsured(Seeding(old(registry.View()), n), EmbeddingItems(cfg.embedding)), AsrItems(cfg.asr))
  {
    ghost var z := Seeding(registry.View(), n);
    n' := n;
    if cfg.embedding.enabled {
      var name := Or(cfg.embedding.model, DEFAULT_EMBEDDING);
      ghost var first := WantModel(EmbeddingOf(cfg.embedding, name), "");
      n' := EnsureModel(registry, EmbeddingOf(cfg.embedding, name), "", n');
      assert Seeding(registry.View(), n') == AllEnsured(z, [first]) by { assert [first][..0] == []; }
      if EMBEDDING_ALIAS != name {
        ghost var second := WantModel(EmbeddingOf(cfg.embedding, EMBEDDING_ALIAS), "");
        n' := EnsureModel(registry, EmbeddingOf(cfg.embedding, EMBEDDING_ALIAS), "", n');
        assert [first, second][..1] == [first];
      }
    }
    assert Seeding(registry.View(), n') == AllEnsured(z, EmbeddingItems(cfg.embedding));
    if cfg.asr.enabled {
      n' := EnsureModel(registry, AsrOf(cfg.asr), "", n');
      assert AsrItems(cfg.asr)[..0] == [];
    }
  }

  lemma ItemsInTurn(z: Seeding, cfg: Config)
    ensures AllEnsured(z, Items(cfg)) ==
      (var z1 := AllEnsured(AllEnsured(z, ProviderItems(cfg.providers)), LlmProviderItems(cfg.llmProviders));
       var z2 := AllEnsured(AllEnsured(z1, ModelItems(cfg.models)), LlmModelItems(cfg.llmProviders));
       AllEnsured(AllEnsured(z2, EmbeddingItems(cfg.embedding)), AsrItems(cfg.asr)))
  {
    var a, b, c := ProviderItems(cfg.providers), LlmProviderItems(cfg.llmProviders), ModelItems(cfg.models);
    var d, e, f := LlmModelItems(cfg.llmProviders), EmbeddingItems(cfg.embedding), AsrItems(cfg.asr);
    EnsuredInTurn(z, a, b);
    EnsuredInTurn(z, a + b, c);
    EnsuredInTurn(z, a + b + c, d);
    EnsuredInTurn(z, a + b + c + d, e);
    EnsuredInTurn(z, a + b + c + d + e, f);
  }

  method SeedProfiles(registry: Registry, n: Counts) returns (r: Result<Counts, Refusal>)
    modifies registry
    ensures var o := ProfilesEnsured(Seeding(old(registry.View()), n));
            && registry.View() == o.z.s
            && r == if o.error.Some? then Failure(o.error.value) else Success(o.z.n)
  {
    r := EnsureProfile(registry, "default-chat", Chat, n);
    if r.Failure? { return; }
    r := EnsureProfile(registry, "default-embedding", Embedding, r.value);
    if r.Failure? { return; }
    r := EnsureProfile(registry, "default-asr", Asr, r.value);
    if r.Failure? { return; }
    r := EnsureProfile(registry, "meeting-asr", Asr, r.value);
    if r.Failure? { return; }
    r := EnsureProfile(registry, "default", Chat, r.value);
  }

  method SeedFromYaml(registry: Registry, cfg: Config) returns (r: Result<Counts, Refusal>)
    requires Fresh(registry.View())
    modifies registry, registry.gateway, registry.embedding, registry.asr
    ensures var o := Seeded(old(registry.View()), cfg);
            && registry.View() == o.z.s
            && r == if o.error.Some? then Failure(o.error.value) else Success(o.z.n)
  {
    ghost var z := Seeding(registry.View(), Counts(0, 0, 0));
    ItemsInTurn(z, cfg);
    StaysFresh(z, ProviderItems(cfg.providers));
    ghost var z1 := AllEnsured(z, ProviderItems(cfg.providers));
    StaysFresh(z1, LlmProviderItems(cfg.llmProviders));
    StaysFresh(AllEnsured(z1, LlmProviderItems(cfg.llmProviders)), ModelItems(cfg.models));
    var n := SeedProviders(registry, cfg, Counts(0, 0, 0));
    n := SeedListedModels(registry, cfg, n);
    n := SeedLlmModels(registry, cfg, n);
    n := SeedBuiltIn(registry, cfg, n);
    r := SeedProfiles(registry, n);
  }

  // ---- seeding twice ----

  lemma EnsuredIsPresent(z: Seeding, item: Item)
    ensures Present(Ensured(z, item).s, item)
  {
    match item {
      case WantProvider(p) => if !Present(z.s, item) { assert Ensured(z, item).s.providers[z.s.nextId].name == p.name; }
      case WantModel(m, _) => if !Present(z.s, item) { assert Ensured(z, item).s.models[z.s.nextId].name == m.name; }
    }
  }

  lemma PresentStays(z: Seeding, item: Item, other: Item)
    requires Fresh(z.s) && Present(z.s, other)
    ensures Fresh(Ensured(z, item).s) && Present(Ensured(z, item).s, other)
  {
    var post := Ensured(z, item).s;
    assert forall id | id in z.s.providers :: id in post.providers && post.providers[id] == z.s.providers[id];
    assert forall id | id in z.s.models :: id in post.models && post.models[id] == z.s.models[id];
  }

  lemma {:induction false} AllPresent(z: Seeding, items: seq<Item>)
    requires Fresh(z.s)
    ensures var s := AllEnsured(z, items).s; Fresh(s) && forall i | 0 <= i < |items| :: Present(s, items[i])
  {
    if items != [] {
      var n := |items| - 1;
      AllPresent(z, items[..n]);
      var before := AllEnsured(z, items[..n]);
      forall i | 0 <= i < n ensures Present(Ensured(before, items[n]).s, items[i]) {
        assert items[..n][i] == items[i];
        PresentStays(before, items[n], items[i]);
      }
      EnsuredIsPresent(before, items[n]);
    }
  }

  lemma {:induction false} NothingToDo(z: Seeding, items: seq<Item>)
    requires forall i | 0 <= i < |items| :: Present(z.s, items[i])
    ensures AllEnsured(z, items) == z
  {
    if items != [] { NothingToDo(z, items[..|items| - 1]); }
  }

  type Wants = set<(string, ModelType)>

  /** Only enabled models, and only profiles without a tenant for them, each for one of the wants, all settled. */
  ghost predicate Plain(s: State, done: Wants) {
    && Fresh(s)
    && (forall id | id in s.models :: s.models[id].enabled)
    && (forall p | p in s.profiles :: p < s.nextId && s.profiles[p].tenant.None? && s.profiles[p].model in s.models)
    && (forall p | p in s.profiles :: exists w | w in done :: w.0 == s.profiles[p].name)
    && (forall w | w in done :: Settled(s, w.0, w.1))
  }

  predicate Settled(s: State, name: string, t: ModelType) {
    FirstOfType(s.models, t, s.nextId).None? || Resolves(s, name)
  }

  lemma {:induction false} ItemsKeepPlain(z: Seeding, items: seq<Item>)
    requires Plain(z.s, {})
    requires AskEnabled(items)
    ensures Plain(AllEnsured(z, items).s, {})
  {
    if items != [] { ItemsKeepPlain(z, items[..|items| - 1]); }
  }

  lemma FirstBeyond(models: Models, t: ModelType, n: nat, n': nat)
    requires n <= n' && forall id | id in models :: id < n
    ensures FirstOfType(models, t, n') == FirstOfType(models, t, n)
  {
  }

  /** Only profiles were added, and they were counted. */
  ghost predicate OnlyProfiles(z: Seeding, z': Seeding) {
    && z'.s.models == z.s.models && z'.s.providers == z.s.providers
    && z'.n.models == z.n.models && z'.n.providers == z.n.providers
    && |z'.s.profiles| - z'.n.profiles == |z.s.profiles| - z.n.profiles
  }

  lemma StaysSettled(s: State, p: Profile, name: string, t: ModelType)
    requires Fresh(s) && (forall x | x in s.profiles :: x < s.nextId) && Settled(s, name, t)
    ensures Settled(s.(profiles := s.profiles[s.nextId := p], nextId := s.nextId + 1), name, t)
  {
    var post := s.(profiles := s.profiles[s.nextId := p], nextId := s.nextId + 1);
    FirstBeyond(s.models, t, s.nextId, post.nextId);
    if Resolves(s, name) {
      var x :| x in s.profiles && s.profiles[x].name == name && s.profiles[x].tenant.None?
               && s.profiles[x].model in s.models && s.models[s.profiles[x].model].enabled;
      assert post.profiles[x] == s.profiles[x];
    }
  }

  /** A profile step under a new name succeeds, settles that name and unsettles no other. */
  lemma ProfileStep(z: Seeding, done: Wants, name: string, t: ModelType)
    requires Plain(z.s, done) && forall w | w in done :: w.0 != name
    ensures ProfileEnsured(z, name, t).error.None?
    ensures var z' := ProfileEnsured(z, name, t).z; Plain(z'.s, done + {(name, t)}) && OnlyProfiles(z, z')
  {
    var post := ProfileEnsured(z, name, t).z.s;
    assert (name, t) in done + {(name, t)};
    if post != z.s {
      var p := post.profiles[z.s.nextId];
      assert p.name == name;
      forall w | w in done ensures Settled(post, w.0, w.1) { StaysSettled(z.s, p, w.0, w.1); }
    }
  }

  lemma ThenStep(z: Seeding, r: Tried, done: Wants, name: string, t: ModelType)
    requires r.error.None? && Plain(r.z.s, done) && OnlyProfiles(z, r.z) && forall w | w in done :: w.0 != name
    ensures var r' := ThenProfile(r, name, t);
            r'.error.None? && Plain(r'.z.s, done + {(name, t)}) && OnlyProfiles(z, r'.z)
  {
    ProfileStep(r.z, done, name, t);
  }

  lemma ThreeSteps(z: Seeding, a: string, b: string, c: string)
    requires Plain(z.s, {}) && a != b && c != a && c != b
    ensures var r := ThenProfile(ThenProfile(ThenProfile(Tried(z, None), a, Chat), b, Embedding), c, Asr);
            && r.error.None? && OnlyProfiles(z, r.z)
            && Plain(r.z.s, {} + {(a, Chat)} + {(b, Embedding)} + {(c, Asr)})
  {
    assert OnlyProfiles(z, z);
    hide Plain, OnlyProfiles, Settled, ThenProfile;
    ThenStep(z, Tried(z, None), {}, a, Chat);
    var r1, done1 := ThenProfile(Tried(z, None), a, Chat), {} + {(a, Chat)};
    ThenStep(z, r1, done1, b, Embedding);
    ThenStep(z, ThenProfile(r1, b, Embedding), done1 + {(b, Embedding)}, c, Asr);
  }

  /** Two more steps, each under a name not used before. */
  lemma TwoSteps(z: Seeding, r: Tried, done: Wants, d: string, e: string)
    requires r.error.None? && Plain(r.z.s, done) && OnlyProfiles(z, r.z)
    requires d != e && forall w | w in done :: w.0 != d && w.0 != e
    ensures var r' := ThenProfile(ThenProfile(r, d, Asr), e, Chat);
            && r'.error.None? && OnlyProfiles(z, r'.z) && Plain(r'.z.s, done + {(d, Asr)} + {(e, Chat)})
  {
    hide Plain, OnlyProfiles, Settled, ThenProfile;
    ThenStep(z, r, done, d, Asr);
    ThenStep(z, ThenProfile(r, d, Asr), done + {(d, Asr)}, e, Chat);
  }

  lemma FiveSettled(s: State, a: string, b: string, c: string, d: string, e: string)
    requires Plain(s, {} + {(a, Chat)} + {(b, Embedding)} + {(c, Asr)} + {(d, Asr)} + {(e, Chat)})
    ensures Settled(s, a, Chat) && Settled(s, b, Embedding) && Settled(s, c, Asr)
    ensures Settled(s, d, Asr) && Settled(s, e, Chat)
  {
  }

  predicate AllSettled(s: State) {
    && Settled(s, "default-chat", Chat) && Settled(s, "default-embedding", Embedding) && Settled(s, "default-asr", Asr)
    && Settled(s, "meeting-asr", Asr) && Settled(s, "default", Chat)
  }

  lemma ProfilesSettle(z: Seeding)
    requires Plain(z.s, {})
    ensures var r := ProfilesEnsured(z);
            r.error.None? && AllSettled(r.z.s) && OnlyProfiles(z, r.z)
  {
    hide Plain, OnlyProfiles, Settled, ThenProfile;
    assert |"default-chat"| == 12 && |"default-embedding"| == 17 && |"default-asr"| == 11 && |"default"| == 7;
    assert |"meeting-asr"| == 11 && "meeting-asr"[0] != "default-asr"[0];
    ThreeSteps(z, "default-chat", "default-embedding", "default-asr");
    var r := ThenProfile(ThenProfile(ThenProfile(Tried(z, None), "default-chat", Chat), "default-embedding", Embedding),
                         "default-asr", Asr);
    TwoSteps(z, r, {} + {("default-chat", Chat)} + {("default-embedding", Embedding)} + {("default-asr", Asr)},
             "meeting-asr", "default");
    FiveSettled(ProfilesEnsured(z).z.s, "default-chat", "default-embedding", "default-asr", "meeting-asr", "default");
  }

  lemma SettledIsDone(z: Seeding)
    requires AllSettled(z.s)
    ensures ProfilesEnsured(z) == Tried(z, None)
  {
  }

  /** The counters are the rows added: none is created twice and none goes uncounted. */
  ghost predicate Counted(s: State, z: Seeding) {
    && |z.s.providers| == |s.providers| + z.n.providers && |z.s.models| == |s.models| + z.n.models
    && |z.s.profiles| == |s.profiles| + z.n.profiles
  }

  lemma ItemCounted(s: State, z: Seeding, item: Item)
    requires Fresh(z.s) && Counted(s, z)
    ensures Counted(s, Ensured(z, item))
  {
    assert z.s.nextId !in z.s.providers && z.s.nextId !in z.s.models;
  }

  lemma {:induction false} ItemsCounted(s: State, items: seq<Item>)
    requires Fresh(s)
    ensures Counted(s, AllEnsured(Seeding(s, Counts(0, 0, 0)), items))
  {
    if items != [] {
      var n := |items| - 1;
      ItemsCounted(s, items[..n]);
      StaysFresh(Seeding(s, Counts(0, 0, 0)), items[..n]);
      ItemCounted(s, AllEnsured(Seeding(s, Counts(0, 0, 0)), items[..n]), items[n]);
    }
  }

  /**
   Seeding a registry that holds no models (hence no profiles, by the foreign key) succeeds and reports
   exactly the rows it added; doing it again with the same configuration imports nothing and leaves
   everything as it is.
   */
  lemma SeedingTwice(s: State, cfg: Config)
    requires Tidy(s) && s.models == map[] && forall p | p in s.profiles :: s.profiles[p].model in s.models
    ensures Seeded(s, cfg).error.None? && Counted(s, Seeded(s, cfg).z)
    ensures var first := Seeded(s, cfg).z.s;
            Seeded(first, cfg) == Tried(Seeding(first, Counts(0, 0, 0)), None)
  {
    var start, items := Seeding(s, Counts(0, 0, 0)), Items(cfg);
    var z := AllEnsured(start, items);
    AllPresent(start, items);
    ItemsKeepPlain(start, items);
    ItemsCounted(s, items);
    ProfilesSettle(z);
    var first := ProfilesEnsured(z).z.s;
    var again := Seeding(first, Counts(0, 0, 0));
    forall i | 0 <= i < |items| ensures Present(first, items[i]) { assert Present(z.s, items[i]); }
    NothingToDo(again, items);
    SettledIsDone(again);
  }

  // ---- the first boot: seeding, then loading on top of what seeding has loaded ----

  ghost predicate InStep(s: State) {
    Tidy(s) && Coherent(s) && Exact(s)
  }

  lemma ActionInStep(s: State, a: Action)
    requires InStep(s) && Enabled(s, a) && !a.UpdateModel?
    ensures InStep(After(s, a))
  {
    StepTidy(s, a);
    StepCoheres(s, a);
    StepExact(s, a);
  }

  lemma {:induction false} ItemsInStep(z: Seeding, items: seq<Item>)
    requires InStep(z.s)
    ensures InStep(AllEnsured(z, items).s)
  {
    if items != [] {
      var n := |items| - 1;
      hide InStep;
      ItemsInStep(z, items[..n]);
      EnsuredInStep(AllEnsured(z, items[..n]), items[n]);
    }
  }

  lemma EnsuredInStep(z: Seeding, item: Item)
    requires InStep(z.s)
    ensures InStep(Ensured(z, item).s)
  {
    match item {
      case WantProvider(p) => ActionInStep(z.s, CreateProvider(p));
      case WantModel(m, under) => ActionInStep(z.s, CreateModel(m.(providerId := ProviderIdOf(z.s, under))));
    }
  }

  lemma ProfileInStep(r: Tried, name: string, t: ModelType)
    requires InStep(r.z.s)
    ensures InStep(ThenProfile(r, name, t).z.s)
  {
    var s := r.z.s;
    var first := FirstOfType(s.models, t, s.nextId);
    if first.Some? { ActionInStep(s, CreateProfile(Profile(name, t, first.value, None, None))); }
  }

  /**
   Engines that were in step with the tables are so after seeding and after all enabled models have then
   been loaded once more, whatever the configuration.
   */
  lemma BootInStep(s: State, cfg: Config, order: seq<nat>)
    requires InStep(s) && Listing(Seeded(s, cfg).z.s.models, order)
    ensures InStep(Seeded(s, cfg).z.s) && InStep(After(Seeded(s, cfg).z.s, LoadAll(order)))
  {
    var z := AllEnsured(Seeding(s, Counts(0, 0, 0)), Items(cfg));
    ItemsInStep(Seeding(s, Counts(0, 0, 0)), Items(cfg));
    hide InStep, ThenProfile;
    var r1 := ThenProfile(Tried(z, None), "default-chat", Chat);
    ProfileInStep(Tried(z, None), "default-chat", Chat);
    var r2 := ThenProfile(r1, "default-embedding", Embedding);
    ProfileInStep(r1, "default-embedding", Embedding);
    var r3 := ThenProfile(r2, "default-asr", Asr);
    ProfileInStep(r2, "default-asr", Asr);
    var r4 := ThenProfile(r3, "meeting-asr", Asr);
    ProfileInStep(r3, "meeting-asr", Asr);
    ProfileInStep(r4, "default", Chat);
    ActionInStep(Seeded(s, cfg).z.s, LoadAll(order));
  }
}
