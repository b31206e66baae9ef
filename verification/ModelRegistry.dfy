/** The model registry: tables of providers, models and profiles, and the engines kept in step with them. */
module ModelRegistry {
  import opened Wrappers

  datatype ModelType = Chat | Embedding | Asr | OtherType(name: string)
  datatype Source = Local | External | OtherSource(name: string)

  /** An API key at rest: encrypted under a fixed master key, or blank. */
  datatype Stored = Blank | Sealed(plain: string)

  function Encrypt(key: string): Stored { if key == "" then Blank else Sealed(key) }

  function Decrypt(stored: Stored): string {
    match stored
    case Blank => ""
    case Sealed(plain) => plain
  }

  datatype Provider = Provider(name: string, ptype: string, baseUrl: string, apiKey: Stored, enabled: bool)
  datatype Model = Model(name: string, mtype: ModelType, provider: string, providerId: Option<nat>, source: Source,
                         path: Option<string>, config: string, dim: Option<int>, priority: int, enabled: bool)
  datatype Profile = Profile(name: string, mtype: ModelType, model: nat, fallback: Option<nat>, tenant: Option<string>)

  type Providers = map<nat, Provider>
  type Models = map<nat, Model>
  type Profiles = map<nat, Profile>

  // ---- the engines ----

  datatype Engine = GATEWAY | EMBEDDING | ASR
  datatype Entry =
    | Remote(ptype: string, apiKey: string, baseUrl: string)
    | Embedder(dim: Option<int>, path: Option<string>)
    | Recognizer(path: Option<string>, config: string, provider: string)
  type Table = map<string, Entry>
  datatype Engines = Engines(gateway: Table, embedding: Table, asr: Table) {
    function At(k: Engine): Table {
      match k
      case GATEWAY => gateway
      case EMBEDDING => embedding
      case ASR => asr
    }

    function With(k: Engine, t: Table): Engines {
      match k
      case GATEWAY => this.(gateway := t)
      case EMBEDDING => this.(embedding := t)
      case ASR => this.(asr := t)
    }
  }

  /** Which engine a model belongs to, decided by type and source. */
  function Route(m: Model): Option<Engine> {
    if m.mtype == Chat then Some(GATEWAY)
    else if m.mtype == Embedding && m.source == Local then Some(EMBEDDING)
    else if m.mtype == Asr && m.source == Local then Some(ASR)
    else if m.source == External then Some(GATEWAY)
    else None
  }

  /** The only speech providers the recognizer registers; it raises for any other. */
  predicate RecognizerKnows(provider: string) {
    provider == "sensevoice-onnx" || provider == "sensevoice-funasr"
  }

  /** What loading the model registers, None when it registers nothing or the engine refuses. */
  function Expected(providers: Providers, m: Model): Option<Entry> {
    match Route(m)
    case None => None
    case Some(GATEWAY) =>
      Some(if m.providerId.Some? && m.providerId.value in providers
           then var p := providers[m.providerId.value]; Remote(p.ptype, Decrypt(p.apiKey), p.baseUrl)
           else Remote(m.provider, "", ""))
    case Some(EMBEDDING) => Some(Embedder(m.dim, m.path))
    case Some(ASR) => if RecognizerKnows(m.provider) then Some(Recognizer(m.path, m.config, m.provider)) else None
  }

  /** A refused registration is logged and leaves the engine as it was. */
  function Load(providers: Providers, engines: Engines, m: Model): Engines {
    match Expected(providers, m)
    case None => engines
    case Some(entry) => engines.With(Route(m).value, engines.At(Route(m).value)[m.name := entry])
  }

  function Unload(engines: Engines, m: Model): Engines {
    match Route(m)
    case None => engines
    case Some(k) => engines.With(k, engines.At(k) - {m.name})
  }

  // ---- the effect of each call ----

  datatype State = State(providers: Providers, models: Models, profiles: Profiles, nextId: nat, engines: Engines)
  datatype Refusal = NotFound | InUse | DuplicateName | ForeignKey

  predicate ProviderNamed(providers: Providers, name: string) {
    exists id | id in providers :: providers[id].name == name
  }

  predicate ModelNamed(models: Models, name: string) {
    exists id | id in models :: models[id].name == name
  }

  predicate References(providers: Providers, providerId: Option<nat>) {
    providerId.Some? ==> providerId.value in providers
  }

  /** What the caller gives: the API key is in plain text and is encrypted for the row. */
  datatype NewProvider = NewProvider(name: string, ptype: string, baseUrl: string, apiKey: string, enabled: bool)

  function ProviderRow(n: NewProvider): Provider {
    Provider(n.name, n.ptype, n.baseUrl, Encrypt(n.apiKey), n.enabled)
  }

  function ProviderCreated(s: State, n: NewProvider): Result<State, Refusal> {
    if ProviderNamed(s.providers, n.name) then Failure(DuplicateName)
    else Success(s.(providers := s.providers[s.nextId := ProviderRow(n)], nextId := s.nextId + 1))
  }

  datatype ProviderFields = ProviderFields(name: Option<string>, ptype: Option<string>, baseUrl: Option<string>,
                                           apiKey: Option<string>, enabled: Option<bool>)

  function Or<T>(field: Option<T>, current: T): T {
    match field
    case Some(value) => value
    case None => current
  }

  function WithFields(p: Provider, f: ProviderFields): Provider {
    Provider(Or(f.name, p.name), Or(f.ptype, p.ptype), Or(f.baseUrl, p.baseUrl),
             (match f.apiKey case Some(key) => Encrypt(key) case None => p.apiKey), Or(f.enabled, p.enabled))
  }

  /** `order` is the listing the database returned. */
  function ProviderUpdated(s: State, id: nat, f: ProviderFields, order: seq<nat>): Result<State, Refusal>
    requires forall x | x in order :: x in s.models
  {
    if id !in s.providers then Failure(NotFound)
    else if f == ProviderFields(None, None, None, None, None) then Success(s)
    else
      var p := WithFields(s.providers[id], f);
      if ProviderNamed(s.providers - {id}, p.name) then Failure(DuplicateName)
      else
        var providers := s.providers[id := p];
        Success(s.(providers := providers, engines := Reloaded(providers, s.models, s.engines, id, order)))
  }

  /** Each enabled model of the provider is unloaded and loaded again, in turn. */
  function Reloaded(providers: Providers, models: Models, engines: Engines, provider: nat, order: seq<nat>): Engines
    requires forall x | x in order :: x in models
  {
    if order == [] then engines
    else
      var before := Reloaded(providers, models, engines, provider, order[..|order| - 1]);
      Reload(providers, before, provider, models[order[|order| - 1]])
  }

  function Reload(providers: Providers, engines: Engines, provider: nat, m: Model): Engines {
    if m.providerId == Some(provider) && m.enabled then Load(providers, Unload(engines, m), m) else engines
  }

  function ProviderDeleted(s: State, id: nat): Result<State, Refusal> {
    if id !in s.providers then Failure(NotFound)
    else if exists x | x in s.models :: s.models[x].providerId == Some(id) then Failure(InUse)
    else Success(s.(providers := s.providers - {id}))
  }

  function ModelCreated(s: State, m: Model): Result<State, Refusal> {
    if ModelNamed(s.models, m.name) then Failure(DuplicateName)
    else if !References(s.providers, m.providerId) then Failure(ForeignKey)
    else
      Success(s.(models := s.models[s.nextId := m], nextId := s.nextId + 1,
                 engines := if m.enabled then Load(s.providers, s.engines, m) else s.engines))
  }

  datatype ModelFields = ModelFields(name: Option<string>, mtype: Option<ModelType>, provider: Option<string>,
                                     providerId: Option<nat>, source: Option<Source>, path: Option<string>,
                                     config: Option<string>, dim: Option<int>, priority: Option<int>,
                                     enabled: Option<bool>)

  function WithModelFields(m: Model, f: ModelFields): Model {
    Model(Or(f.name, m.name), Or(f.mtype, m.mtype), Or(f.provider, m.provider),
          if f.providerId.Some? then f.providerId else m.providerId, Or(f.source, m.source),
          if f.path.Some? then f.path else m.path, Or(f.config, m.config),
          if f.dim.Some? then f.dim else m.dim, Or(f.priority, m.priority), Or(f.enabled, m.enabled))
  }

  /** The row is changed first, so the unloading goes by the new row. */
  function ModelUpdated(s: State, id: nat, f: ModelFields): Result<State, Refusal> {
    if id !in s.models then Failure(NotFound)
    else if f == ModelFields(None, None, None, None, None, None, None, None, None, None) then Success(s)
    else
      var m := WithModelFields(s.models[id], f);
      if ModelNamed(s.models - {id}, m.name) then Failure(DuplicateName)
      else if !References(s.providers, m.providerId) then Failure(ForeignKey)
      else
        var unloaded := Unload(s.engines, m);
        Success(s.(models := s.models[id := m],
                   engines := if m.enabled then Load(s.providers, unloaded, m) else unloaded))
  }

  /** The profiles left after deleting a model's. */
  function ProfilesWithout(profiles: Profiles, model: nat): Profiles {
    map p | p in profiles && profiles[p].model != model && profiles[p].fallback != Some(model) :: profiles[p]
  }

  function ModelDeleted(s: State, id: nat): Result<State, Refusal> {
    if id !in s.models then Failure(NotFound)
    else Success(s.(engines := Unload(s.engines, s.models[id]), profiles := ProfilesWithout(s.profiles, id),
                    models := s.models - {id}))
  }

  function ModelEnabled(s: State, id: nat): State {
    if id !in s.models then s
    else
      var m := s.models[id].(enabled := true);
      s.(models := s.models[id := m], engines := Load(s.providers, s.engines, m))
  }

  function ModelDisabled(s: State, id: nat): State {
    if id !in s.models then s
    else s.(engines := Unload(s.engines, s.models[id]), models := s.models[id := s.models[id].(enabled := false)])
  }

  const NO_ENGINES := Engines(map[], map[], map[])

  /** Every enabled model is loaded on top of what the engines hold already. */
  function Loaded(providers: Providers, models: Models, engines: Engines, order: seq<nat>): Engines
    requires forall x | x in order :: x in models
  {
    if order == [] then engines
    else
      var before := Loaded(providers, models, engines, order[..|order| - 1]);
      var m := models[order[|order| - 1]];
      if m.enabled then Load(providers, before, m) else before
  }

  function ProfileCreated(s: State, p: Profile): Result<State, Refusal> {
    if exists id | id in s.profiles :: s.profiles[id].name == p.name then Failure(DuplicateName)
    else if p.model !in s.models || (p.fallback.Some? && p.fallback.value !in s.models) then Failure(ForeignKey)
    else Success(s.(profiles := s.profiles[s.nextId := p], nextId := s.nextId + 1))
  }

  /** `ORDER BY priority, created_at`: ids are handed out in the order of creation. */
  ghost predicate Listing(models: Models, order: seq<nat>) {
    && (forall x :: x in order <==> x in models)
    && forall i, k | 0 <= i < k < |order| ::
         order[i] in models && order[k] in models
         && var a, b := models[order[i]].priority, models[order[k]].priority;
            a < b || (a == b && order[i] < order[k])
  }

  // ---- the objects ----

  class ModelGateway {
    var names: Table
    constructor () ensures names == map[] { names := map[]; }

    method RegisterModel(name: string, entry: Entry)
      modifies this
      ensures names == old(names)[name := entry]
    {
      names := names[name := entry];
    }

    method DeregisterModel(name: string) returns (known: bool)
      modifies this
      ensures names == old(names) - {name} && (known <==> name in old(names))
    {
      known := name in names;
      names := names - {name};
    }
  }

  class EmbeddingManager {
    var registered: Table
    constructor () ensures registered == map[] { registered := map[]; }

    method Register(name: string, dim: Option<int>, path: Option<string>)
      modifies this
      ensures registered == old(registered)[name := Embedder(dim, path)]
    {
      registered := registered[name := Embedder(dim, path)];
    }

    method Unregister(name: string)
      modifies this
      ensures registered == old(registered) - {name}
    {
      registered := registered - {name};
    }
  }

  class AsrRouter {
    var backends: Table
    constructor () ensures backends == map[] { backends := map[]; }

    method Register(name: string, path: Option<string>, config: string, provider: string) returns (known: bool)
      modifies this
      ensures known <==> RecognizerKnows(provider)
      ensures backends == if known then old(backends)[name := Recognizer(path, config, provider)] else old(backends)
    {
      known := RecognizerKnows(provider);
      if known { backends := backends[name := Recognizer(path, config, provider)]; }
    }

    method Unregister(name: string)
      modifies this
      ensures backends == old(backends) - {name}
    {
      backends := backends - {name};
    }
  }

  class Registry {
    var providers: Providers
    var models: Models
    var profiles: Profiles
    var nextId: nat
    const gateway: ModelGateway
    const embedding: EmbeddingManager
    const asr: AsrRouter

    constructor ()
      ensures View() == State(map[], map[], map[], 0, Engines(map[], map[], map[]))
      ensures fresh(gateway) && fresh(embedding) && fresh(asr)
    {
      providers, models, profiles, nextId := map[], map[], map[], 0;
      gateway := new ModelGateway();
      embedding := new EmbeddingManager();
      asr := new AsrRouter();
    }

    function View(): State reads this, gateway, embedding, asr {
      State(providers, models, profiles, nextId, Engines(gateway.names, embedding.registered, asr.backends))
    }

    method RegisterRemote(m: Model)
      modifies gateway
      ensures var p := m.providerId;
              gateway.names == old(gateway.names)[m.name :=
                if p.Some? && p.value in providers
                then Remote(providers[p.value].ptype, Decrypt(providers[p.value].apiKey), providers[p.value].baseUrl)
                else Remote(m.provider, "", "")]
    {
      if m.providerId.Some? && m.providerId.value in providers {
        var p := providers[m.providerId.value];
        gateway.RegisterModel(m.name, Remote(p.ptype, Decrypt(p.apiKey), p.baseUrl));
      } else {
        gateway.RegisterModel(m.name, Remote(m.provider, "", ""));
      }
    }

    method HotLoad(m: Model)
      modifies gateway, embedding, asr
      ensures View() == old(View()).(engines := Load(providers, old(View()).engines, m))
    {
      if m.mtype == Chat {
        RegisterRemote(m);
      } else if m.mtype == Embedding && m.source == Local {
        embedding.Register(m.name, m.dim, m.path);
      } else if m.mtype == Asr && m.source == Local {
        var _ := asr.Register(m.name, m.path, m.config, m.provider);
      } else if m.source == External {
        RegisterRemote(m);
      }
    }

    method HotUnload(id: nat)
      modifies gateway, embedding, asr
      ensures View() == if id in models then old(View()).(engines := Unload(old(View()).engines, models[id]))
                        else old(View())
    {
      if id !in models { return; }
      var m := models[id];
      if m.mtype == Chat {
        var _ := gateway.DeregisterModel(m.name);
      } else if m.mtype == Embedding && m.source == Local {
        embedding.Unregister(m.name);
      } else if m.mtype == Asr && m.source == Local {
        asr.Unregister(m.name);
      } else if m.source == External {
        var _ := gateway.DeregisterModel(m.name);
      }
    }

    method CreateProvider(n: NewProvider) returns (r: Result<nat, Refusal>)
      modifies this
      ensures match ProviderCreated(old(View()), n)
              case Failure(e) => r == Failure(e) && View() == old(View())
              case Success(post) => r == Success(old(nextId)) && View() == post
    {
      if ProviderNamed(providers, n.name) { return Failure(DuplicateName); }
      var row := Provider(n.name, n.ptype, n.baseUrl, Encrypt(n.apiKey), n.enabled);
      r := Success(nextId);
      providers, nextId := providers[nextId := row], nextId + 1;
    }

    method UpdateProvider(id: nat, f: ProviderFields, order: seq<nat>) returns (r: Result<(), Refusal>)
      requires Listing(models, order)
      modifies this, gateway, embedding, asr
      ensures match ProviderUpdated(old(View()), id, f, order)
              case Failure(e) => r == Failure(e) && View() == old(View())
              case Success(post) => r == Success(()) && View() == post
    {
      if id !in providers { return Failure(NotFound); }
      if f == ProviderFields(None, None, None, None, None) { return Success(()); }
      var p := WithFields(providers[id], f);
      if ProviderNamed(providers - {id}, p.name) { return Failure(DuplicateName); }
      providers := providers[id := p];
      for i := 0 to |order|
        invariant providers == old(providers)[id := p] && models == old(models)
        invariant View() == old(View()).(providers := providers,
                    engines := Reloaded(providers, models, old(View()).engines, id, order[..i]))
      {
        assert order[..i + 1][..i] == order[..i];
        var m := models[order[i]];
        if m.providerId == Some(id) && m.enabled {
          HotUnload(order[i]);
          HotLoad(m);
        }
      }
      assert order[..|order|] == order;
      r := Success(());
    }

    method DeleteProvider(id: nat) returns (r: Result<(), Refusal>)
      modifies this
      ensures match ProviderDeleted(old(View()), id)
              case Failure(e) => r == Failure(e) && View() == old(View())
              case Success(post) => r == Success(()) && View() == post
    {
      if id !in providers { return Failure(NotFound); }
      if exists x | x in models :: models[x].providerId == Some(id) { return Failure(InUse); }
      providers := providers - {id};
      r := Success(());
    }

    method CreateModel(m: Model) returns (r: Result<nat, Refusal>)
      modifies this, gateway, embedding, asr
      ensures match ModelCreated(old(View()), m)
              case Failure(e) => r == Failure(e) && View() == old(View())
              case Success(post) => r == Success(old(nextId)) && View() == post
    {
      if ModelNamed(models, m.name) { return Failure(DuplicateName); }
      if !References(providers, m.providerId) { return Failure(ForeignKey); }
      r := Success(nextId);
      models, nextId := models[nextId := m], nextId + 1;
      if m.enabled { HotLoad(m); }
    }

    method UpdateModel(id: nat, f: ModelFields) returns (r: Result<(), Refusal>)
      modifies this, gateway, embedding, asr
      ensures match ModelUpdated(old(View()), id, f)
              case Failure(e) => r == Failure(e) && View() == old(View())
              case Success(post) => r == Success(()) && View() == post
    {
      if id !in models { return Failure(NotFound); }
      if f == ModelFields(None, None, None, None, None, None, None, None, None, None) { return Success(()); }
      var m := WithModelFields(models[id], f);
      if ModelNamed(models - {id}, m.name) { return Failure(DuplicateName); }
      if !References(providers, m.providerId) { return Failure(ForeignKey); }
      models := models[id := m];
      HotUnload(id);
      if m.enabled { HotLoad(m); }
      r := Success(());
    }

    method DeleteModel(id: nat) returns (r: Result<(), Refusal>)
      modifies this, gateway, embedding, asr
      ensures match ModelDeleted(old(View()), id)
              case Failure(e) => r == Failure(e) && View() == old(View())
              case Success(post) => r == Success(()) && View() == post
    {
      if id !in models { return Failure(NotFound); }
      HotUnload(id);
      profiles := ProfilesWithout(profiles, id);
      models := models - {id};
      r := Success(());
    }

    method EnableModel(id: nat)
      modifies this, gateway, embedding, asr
      ensures View() == ModelEnabled(old(View()), id)
    {
      if id in models {
        models := models[id := models[id].(enabled := true)];
        HotLoad(models[id]);
      }
    }

    method DisableModel(id: nat)
      modifies this, gateway, embedding, asr
      ensures View() == ModelDisabled(old(View()), id)
    {
      HotUnload(id);
      if id in models { models := models[id := models[id].(enabled := false)]; }
    }

    method CreateProfile(p: Profile) returns (r: Result<nat, Refusal>)
      modifies this
      ensures match ProfileCreated(old(View()), p)
              case Failure(e) => r == Failure(e) && View() == old(View())
              case Success(post) => r == Success(old(nextId)) && View() == post
    {
      if exists id | id in profiles :: profiles[id].name == p.name { return Failure(DuplicateName); }
      if p.model !in models || (p.fallback.Some? && p.fallback.value !in models) { return Failure(ForeignKey); }
      r := Success(nextId);
      profiles, nextId := profiles[nextId := p], nextId + 1;
    }

    method LoadAllEnabled(order: seq<nat>)
      requires Listing(models, order)
      modifies gateway, embedding, asr
      ensures View() == old(View()).(engines := Loaded(providers, models, old(View()).engines, order))
    {
      for i := 0 to |order|
        invariant View() == old(View()).(engines := Loaded(providers, models, old(View()).engines, order[..i]))
      {
        assert order[..i + 1][..i] == order[..i];
        if models[order[i]].enabled { HotLoad(models[order[i]]); }
      }
      assert order[..|order|] == order;
    }
  }
}
