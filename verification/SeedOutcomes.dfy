/** Which rows seeding leaves in the tables, from the keys of the configuration file. */
module SeedOutcomes {
  import opened Wrappers
  import opened ModelRegistry
  import opened RegistryCoherence
  import opened RegistryOutcomes
  import opened RegistrySeed

  // ---- what the configuration asks for ----

  lemma {:induction false} ListsInOrder(ps: seq<ProviderCfg>, ls: seq<LlmProviderCfg>, ms: seq<ModelCfg>)
    ensures |ProviderItems(ps)| == |ps| && |LlmProviderItems(ls)| == |ls| && |ModelItems(ms)| == |ms|
    ensures forall i | 0 <= i < |ps| :: ProviderItems(ps)[i] == WantProvider(ProviderOf(ps[i]))
    ensures forall i | 0 <= i < |ls| :: LlmProviderItems(ls)[i] == WantProvider(ProviderOf(ls[i].provider))
    ensures forall i | 0 <= i < |ms| :: ModelItems(ms)[i] == WantModel(ModelOf(ms[i]), Or(ms[i].provider, ""))
    decreases |ps| + |ls| + |ms|
  {
    if ps != [] {
      ListsInOrder(ps[..|ps| - 1], ls, ms);
    } else if ls != [] {
      ListsInOrder(ps, ls[..|ls| - 1], ms);
    } else if ms != [] {
      ListsInOrder(ps, ls, ms[..|ms| - 1]);
    }
  }

  /** First the providers of both lists, in order, then models only. */
  lemma ProvidersComeFirst(cfg: Config)
    ensures var n, items := |cfg.providers| + |cfg.llmProviders|, Items(cfg);
            && n <= |items|
            && (forall i | 0 <= i < |cfg.providers| :: items[i] == WantProvider(ProviderOf(cfg.providers[i])))
            && (forall i | |cfg.providers| <= i < n ::
                  items[i] == WantProvider(ProviderOf(cfg.llmProviders[i - |cfg.providers|].provider)))
            && forall i | n <= i < |items| :: items[i].WantModel?
  {
    hide ProviderItems, LlmProviderItems, ModelItems, LlmModelItems, EmbeddingItems, AsrItems;
    ListsInOrder(cfg.providers, cfg.llmProviders, cfg.models);
    LlmModelsAreModels(cfg.llmProviders);
    BuiltInsAreModels(cfg);
    var a, b, c := ProviderItems(cfg.providers), LlmProviderItems(cfg.llmProviders), ModelItems(cfg.models);
    var d, e, f := LlmModelItems(cfg.llmProviders), EmbeddingItems(cfg.embedding), AsrItems(cfg.asr);
    assert Items(cfg) == a + b + (c + d + e + f);
    var rest := c + d + e + f;
    forall i | 0 <= i < |rest| ensures rest[i].WantModel? {
      assert rest[i] in c || rest[i] in d || rest[i] in e || rest[i] in f;
    }
  }

  lemma BuiltInsAreModels(cfg: Config)
    ensures forall i | 0 <= i < |EmbeddingItems(cfg.embedding)| :: EmbeddingItems(cfg.embedding)[i].WantModel?
    ensures forall i | 0 <= i < |AsrItems(cfg.asr)| :: AsrItems(cfg.asr)[i].WantModel?
  {
  }

  lemma {:induction false} LlmModelsAreModels(cs: seq<LlmProviderCfg>)
    ensures forall i | 0 <= i < |LlmModelItems(cs)| :: LlmModelItems(cs)[i].WantModel?
  {
    if cs != [] {
      var n := |cs| - 1;
      LlmModelsAreModels(cs[..n]);
      IdsAreModels(cs[n], cs[n].modelIds);
    }
  }

  lemma {:induction false} IdsAreModels(c: LlmProviderCfg, ids: seq<string>)
    ensures |IdItems(c, ids)| == |ids|
    ensures forall i | 0 <= i < |ids| :: IdItems(c, ids)[i] == WantModel(LlmModelOf(c, ids[i]), c.provider.name)
  {
    if ids != [] { IdsAreModels(c, ids[..|ids| - 1]); }
  }

  lemma {:induction false} LlmModelsAreThere(cs: seq<LlmProviderCfg>, i: nat, j: nat)
    requires i < |cs| && j < |cs[i].modelIds|
    ensures WantModel(LlmModelOf(cs[i], cs[i].modelIds[j]), cs[i].provider.name) in LlmModelItems(cs)
  {
    var n := |cs| - 1;
    if i == n {
      IdsAreModels(cs[n], cs[n].modelIds);
      assert IdItems(cs[n], cs[n].modelIds)[j] in IdItems(cs[n], cs[n].modelIds);
    } else {
      LlmModelsAreThere(cs[..n], i, j);
    }
  }

  /** A listed model is asked for under its own provider, external chat models of priority 100 by default. */
  lemma ListedModelIsWanted(cfg: Config, i: nat)
    requires i < |cfg.models|
    ensures var c := cfg.models[i];
            WantModel(Model(c.name, Given(c.mtype, Chat), Given(c.provider, ""), None, Given(c.source, External),
                            Some(""), "{}", None, Given(c.priority, 100), true),
                      Given(c.provider, "")) in Items(cfg)
  {
    ListsInOrder([], [], cfg.models);
    assert ModelItems(cfg.models)[i] in ModelItems(cfg.models);
  }

  /** Every model id under a provider is asked for as an external chat model of that provider and its priority. */
  lemma LlmModelIsWanted(cfg: Config, i: nat, j: nat)
    requires i < |cfg.llmProviders| && j < |cfg.llmProviders[i].modelIds|
    ensures var c := cfg.llmProviders[i];
            WantModel(Model(c.modelIds[j], Chat, c.provider.name, None, External, Some(""), "{}", None,
                            Given(c.priority, 100), true),
                      c.provider.name) in Items(cfg)
  {
    LlmModelsAreThere(cfg.llmProviders, i, j);
  }

  /** The built-in models are asked for when enabled, the embedding model also under its short name. */
  lemma BuiltInsAreWanted(cfg: Config)
    ensures cfg.embedding.enabled ==>
            var c := cfg.embedding;
            var name := Given(c.model, "jinaai/jina-embeddings-v2-base-zh");
            var wanted := Model(name, Embedding, Given(c.provider, "fastembed"), None, Local, c.cacheDir, "{}",
                                Some(Given(c.dim, 768)), 1, true);
            && WantModel(wanted, "") in Items(cfg)
            && WantModel(wanted.(name := "jina-embeddings-v2-base-zh"), "") in Items(cfg)
    ensures cfg.asr.enabled ==>
            var c := cfg.asr;
            WantModel(Model(Given(c.modelAlias, "whisper-small"), Asr, Given(c.provider, "faster-whisper"), None, Local,
                            Some(Given(c.path, "")), c.config, None, 1, true), "") in Items(cfg)
  {
    hide ProviderItems, LlmProviderItems, ModelItems, LlmModelItems;
    var e, f := EmbeddingItems(cfg.embedding), AsrItems(cfg.asr);
    if cfg.embedding.enabled { assert e[0] in e && e[|e| - 1] in e; }
    if cfg.asr.enabled { assert f[0] in f; }
  }

  // ---- what is there afterwards ----

  /** Rows are only added. */
  ghost predicate Kept(s: State, post: State) {
    && (forall id | id in s.models :: id in post.models && post.models[id] == s.models[id])
    && (forall id | id in s.providers :: id in post.providers && post.providers[id] == s.providers[id])
  }

  lemma {:induction false} ItemsKeep(z: Seeding, items: seq<Item>)
    requires Fresh(z.s)
    ensures var post := AllEnsured(z, items).s; Fresh(post) && Kept(z.s, post)
    ensures (forall i | 0 <= i < |items| :: items[i].WantModel?) ==> AllEnsured(z, items).s.providers == z.s.providers
  {
    if items != [] { ItemsKeep(z, items[..|items| - 1]); }
  }

  predicate WantsModel(item: Item, name: string) {
    item.WantModel? && item.model.name == name
  }

  predicate WantsProvider(item: Item, name: string) {
    item.WantProvider? && item.provider.name == name
  }

  /** A row that was not there before is of a name that was asked for. */
  lemma {:induction false} NewRowsAreWanted(z: Seeding, items: seq<Item>)
    requires Fresh(z.s)
    ensures var post := AllEnsured(z, items).s;
            && (forall id | id in post.models && id !in z.s.models ::
                  exists i | 0 <= i < |items| :: WantsModel(items[i], post.models[id].name))
            && (forall id | id in post.providers && id !in z.s.providers ::
                  exists i | 0 <= i < |items| :: WantsProvider(items[i], post.providers[id].name))
  {
    if items != [] {
      var n := |items| - 1;
      var mid, post := AllEnsured(z, items[..n]).s, AllEnsured(z, items).s;
      NewRowsAreWanted(z, items[..n]);
      ItemsKeep(z, items[..n]);
      forall id | id in post.models && id !in z.s.models
        ensures exists i | 0 <= i < |items| :: WantsModel(items[i], post.models[id].name)
      {
        if id in mid.models {
          var i :| 0 <= i < n && WantsModel(items[..n][i], mid.models[id].name);
          assert WantsModel(items[i], post.models[id].name);
        } else {
          assert WantsModel(items[n], post.models[id].name);
        }
      }
      forall id | id in post.providers && id !in z.s.providers
        ensures exists i | 0 <= i < |items| :: WantsProvider(items[i], post.providers[id].name)
      {
        if id in mid.providers {
          var i :| 0 <= i < n && WantsProvider(items[..n][i], mid.providers[id].name);
          assert WantsProvider(items[i], post.providers[id].name);
        } else {
          assert WantsProvider(items[n], post.providers[id].name);
        }
      }
    }
  }

  /** The reference to a provider of that name: none when no name is given or there is no such provider. */
  ghost predicate RefersTo(providers: Providers, providerId: Option<nat>, under: string) {
    match providerId
    case Some(p) => under != "" && p in providers && providers[p].name == under
    case None => under == "" || !ProviderNamed(providers, under)
  }

  lemma ProviderIdRefers(s: State, under: string)
    requires Fresh(s)
    ensures RefersTo(s.providers, ProviderIdOf(s, under), under)
  {
  }

  lemma ItemInTheMiddle(z: Seeding, items: seq<Item>, k: nat)
    requires k < |items|
    ensures AllEnsured(z, items) == AllEnsured(Ensured(AllEnsured(z, items[..k]), items[k]), items[k + 1..])
  {
    assert items[..k + 1][..k] == items[..k];
    EnsuredInTurn(z, items[..k + 1], items[k + 1..]);
    assert items[..k + 1] + items[k + 1..] == items;
  }

  /** The first item that asks for a free name gets its row, under the provider it names. */
  lemma ModelIsSeeded(z: Seeding, items: seq<Item>, k: nat) returns (id: nat)
    requires Fresh(z.s) && k < |items| && items[k].WantModel? && !ModelNamed(z.s.models, items[k].model.name)
    requires forall i | 0 <= i < k :: !WantsModel(items[i], items[k].model.name)
    requires forall i | k < i < |items| :: items[i].WantModel?
    ensures var post := AllEnsured(z, items).s;
            && id in post.models
            && post.models[id] == items[k].model.(providerId := post.models[id].providerId)
            && RefersTo(post.providers, post.models[id].providerId, items[k].under)
  {
    var mid := AllEnsured(z, items[..k]);
    NewRowsAreWanted(z, items[..k]);
    ItemsKeep(z, items[..k]);
    id := mid.s.nextId;
    ProviderIdRefers(mid.s, items[k].under);
    hide AllEnsured, RefersTo, ProviderIdOf;
    assert !ModelNamed(mid.s.models, items[k].model.name);
    ItemInTheMiddle(z, items, k);
    ItemsKeep(Ensured(mid, items[k]), items[k + 1..]);
  }

  lemma ProviderIsSeeded(z: Seeding, items: seq<Item>, k: nat) returns (id: nat)
    requires Fresh(z.s) && k < |items| && items[k].WantProvider? && items[k].provider.name != ""
    requires !ProviderNamed(z.s.providers, items[k].provider.name)
    requires forall i | 0 <= i < k :: !WantsProvider(items[i], items[k].provider.name)
    ensures var post := AllEnsured(z, items).s;
            && id in post.providers && post.providers[id] == ProviderRow(items[k].provider)
  {
    var mid := AllEnsured(z, items[..k]);
    NewRowsAreWanted(z, items[..k]);
    ItemsKeep(z, items[..k]);
    id := mid.s.nextId;
    hide AllEnsured, ProviderRow;
    assert !ProviderNamed(mid.s.providers, items[k].provider.name);
    ItemInTheMiddle(z, items, k);
    ItemsKeep(Ensured(mid, items[k]), items[k + 1..]);
  }

  ghost predicate SameRows(s: State, post: State) {
    post.models == s.models && post.providers == s.providers
  }

  lemma ProfileKeepsRows(r: Tried, name: string, t: ModelType)
    ensures SameRows(r.z.s, ThenProfile(r, name, t).z.s)
  {
    hide FirstOfType, Resolves;
  }

  lemma ProfilesKeepRows(z: Seeding)
    ensures SameRows(z.s, ProfilesEnsured(z).z.s)
  {
    hide ThenProfile;
    var r1 := ThenProfile(Tried(z, None), "default-chat", Chat);
    var r2 := ThenProfile(r1, "default-embedding", Embedding);
    var r3 := ThenProfile(r2, "default-asr", Asr);
    var r4 := ThenProfile(r3, "meeting-asr", Asr);
    ProfileKeepsRows(Tried(z, None), "default-chat", Chat);
    ProfileKeepsRows(r1, "default-embedding", Embedding);
    ProfileKeepsRows(r2, "default-asr", Asr);
    ProfileKeepsRows(r3, "meeting-asr", Asr);
    ProfileKeepsRows(r4, "default", Chat);
  }

  /**
   A model that the configuration asks for under a free name is there after seeding, as the first to ask for the
   name wants it, and refers to the provider it names if there is one.
   */
  lemma WantedModelIsSeeded(s: State, cfg: Config, k: nat) returns (id: nat)
    requires Tidy(s) && k < |Items(cfg)| && Items(cfg)[k].WantModel?
    requires !ModelNamed(s.models, Items(cfg)[k].model.name)
    requires forall i | 0 <= i < k :: !WantsModel(Items(cfg)[i], Items(cfg)[k].model.name)
    ensures var post := Seeded(s, cfg).z.s;
            && id in post.models
            && post.models[id] == Items(cfg)[k].model.(providerId := post.models[id].providerId)
            && RefersTo(post.providers, post.models[id].providerId, Items(cfg)[k].under)
  {
    hide Items, ProfilesEnsured;
    ProvidersComeFirst(cfg);
    id := ModelIsSeeded(Seeding(s, Counts(0, 0, 0)), Items(cfg), k);
    ProfilesKeepRows(AllEnsured(Seeding(s, Counts(0, 0, 0)), Items(cfg)));
  }

  /** The first listed provider of a free name is there, an OpenAI-like one without URL and key by default. */
  lemma ListedProviderIsSeeded(s: State, cfg: Config, k: nat) returns (id: nat)
    requires Tidy(s) && k < |cfg.providers| && cfg.providers[k].name != ""
    requires !ProviderNamed(s.providers, cfg.providers[k].name)
    requires forall i | 0 <= i < k :: cfg.providers[i].name != cfg.providers[k].name
    ensures var c, post := cfg.providers[k], Seeded(s, cfg).z.s;
            && id in post.providers
            && var p := post.providers[id];
               && p.name == c.name && p.ptype == Given(c.ptype, "openai") && p.baseUrl == Given(c.baseUrl, "")
               && p.enabled && Decrypt(p.apiKey) == Given(c.apiKey, "")
  {
    hide Items, ProfilesEnsured;
    ProvidersComeFirst(cfg);
    id := ProviderIsSeeded(Seeding(s, Counts(0, 0, 0)), Items(cfg), k);
    ProfilesKeepRows(AllEnsured(Seeding(s, Counts(0, 0, 0)), Items(cfg)));
  }

  /** Earlier rows stay as they were, and every new one is of a name that the configuration asks for. */
  lemma NothingElseIsSeeded(s: State, cfg: Config)
    requires Tidy(s)
    ensures var post := Seeded(s, cfg).z.s;
            && Kept(s, post)
            && (forall id | id in post.models && id !in s.models ::
                  exists i | 0 <= i < |Items(cfg)| :: WantsModel(Items(cfg)[i], post.models[id].name))
            && (forall id | id in post.providers && id !in s.providers ::
                  exists i | 0 <= i < |Items(cfg)| :: WantsProvider(Items(cfg)[i], post.providers[id].name))
  {
    hide Items, ProfilesEnsured;
    var start := Seeding(s, Counts(0, 0, 0));
    ItemsKeep(start, Items(cfg));
    NewRowsAreWanted(start, Items(cfg));
    ProfilesKeepRows(AllEnsured(start, Items(cfg)));
  }

  // ---- default profiles ----

  /** The enabled model that a profile of this name without a tenant leads to. */
  ghost predicate LeadsToModel(s: State, name: string) {
    exists p | p in s.profiles ::
      && s.profiles[p].name == name && s.profiles[p].tenant.None?
      && s.profiles[p].model in s.models && s.models[s.profiles[p].model].enabled
  }

  /**
   Unless one already leads to a model, a default profile is added for the first model of the type by
   priority and age.
   */
  lemma DefaultProfile(z: Seeding, name: string, t: ModelType)
    requires Fresh(z.s)
    ensures var r, s := ProfileEnsured(z, name, t), z.s;
            if LeadsToModel(s, name) || forall id | id in s.models :: s.models[id].mtype != t then r == Tried(z, None)
            else if exists p | p in s.profiles :: s.profiles[p].name == name
            then r == Tried(z, Some(DuplicateName))
            else
              && r.error.None? && r.z.n == z.n.(profiles := z.n.profiles + 1)
              && r.z.s == s.(profiles := r.z.s.profiles, nextId := s.nextId + 1)
              && s.nextId in r.z.s.profiles
              && var p := r.z.s.profiles[s.nextId];
                 && r.z.s.profiles == s.profiles[s.nextId := p]
                 && p.name == name && p.mtype == t && p.tenant.None? && p.fallback.None?
                 && p.model in s.models && s.models[p.model].mtype == t
                 && forall id | id in s.models && s.models[id].mtype == t ::
                      || s.models[p.model].priority < s.models[id].priority
                      || (s.models[p.model].priority == s.models[id].priority && p.model <= id)
  {
    hide FirstOfType;
    assert LeadsToModel(z.s, name) <==> Resolves(z.s, name);
  }
}
