/** What a registry call leaves in the tables and live in the engines, field by field of what the caller gave. */
module RegistryOutcomes {
  import opened Wrappers
  import opened ModelRegistry
  import opened RegistryCoherence

  // ---- when a call is refused ----

  lemma ProviderDecisions(s: State, n: NewProvider, id: nat)
    ensures ProviderCreated(s, n).Success? <==> forall x | x in s.providers :: s.providers[x].name != n.name
    ensures ProviderDeleted(s, id).Success? <==>
            id in s.providers && forall x | x in s.models :: s.models[x].providerId != Some(id)
  {
  }

  lemma ProviderUpdateDecision(s: State, id: nat, f: ProviderFields, order: seq<nat>)
    requires forall x | x in order :: x in s.models
    requires forall x, y | x in s.providers && y in s.providers && s.providers[x].name == s.providers[y].name :: x == y
    ensures ProviderUpdated(s, id, f, order).Success? <==>
            && id in s.providers
            && (f.name.Some? ==> forall x | x in s.providers && x != id :: s.providers[x].name != f.name.value)
  {
    if id in s.providers {
      var others := s.providers - {id};
      assert forall x | x in s.providers && x != id :: x in others && others[x] == s.providers[x];
    }
  }

  lemma ModelCreateDecision(s: State, m: Model)
    ensures ModelCreated(s, m).Success? <==>
            && (forall x | x in s.models :: s.models[x].name != m.name)
            && (m.providerId.Some? ==> m.providerId.value in s.providers)
  {
  }

  lemma ModelUpdateDecision(s: State, id: nat, f: ModelFields)
    requires Tidy(s)
    ensures ModelUpdated(s, id, f).Success? <==>
            && id in s.models
            && (f.name.Some? ==> forall x | x in s.models && x != id :: s.models[x].name != f.name.value)
            && (f.providerId.Some? ==> f.providerId.value in s.providers)
  {
    if id in s.models {
      var others := s.models - {id};
      assert forall x | x in s.models && x != id :: x in others && others[x] == s.models[x];
    }
  }

  // ---- providers ----

  /** Models that live in the gateway: every chat model, and every other external one. */
  predicate InGateway(m: Model) {
    m.mtype == Chat || m.source == External
  }

  lemma GatewayRoute(m: Model)
    ensures Route(m) == Some(GATEWAY) <==> InGateway(m)
  {
  }

  /** An enabled gateway model without a provider is registered under the name in its own row, with no key or URL. */
  lemma UnprovidedModel(s: State, id: nat)
    requires Coherent(s) && id in s.models && s.models[id].enabled && InGateway(s.models[id])
    requires s.models[id].providerId.None?
    ensures var m := s.models[id];
            m.name in s.engines.gateway && s.engines.gateway[m.name] == Remote(m.provider, "", "")
  {
    assert LiveIn(s.providers, s.engines, s.models[id]);
  }

  /** A model of a provider just created is registered with the type, key and URL the caller gave. */
  lemma NewProviderReaches(s: State, n: NewProvider, m: Model)
    requires Tidy(s) && ProviderCreated(s, n).Success?
    requires ModelCreated(ProviderCreated(s, n).value, m).Success?
    requires m.providerId == Some(s.nextId) && m.enabled && InGateway(m)
    ensures var gateway := ModelCreated(ProviderCreated(s, n).value, m).value.engines.gateway;
            m.name in gateway && gateway[m.name] == Remote(n.ptype, n.apiKey, n.baseUrl)
  {
  }

  function Given<T>(field: Option<T>, was: T): T {
    if field.Some? then field.value else was
  }

  lemma UpdatedProviderExpects(p: Provider, f: ProviderFields)
    ensures var q := WithFields(p, f);
            && q.name == Given(f.name, p.name) && q.ptype == Given(f.ptype, p.ptype)
            && q.baseUrl == Given(f.baseUrl, p.baseUrl) && q.enabled == Given(f.enabled, p.enabled)
            && Decrypt(q.apiKey) == Given(f.apiKey, Decrypt(p.apiKey))
  {
  }

  /**
   After a provider update every enabled gateway model of the provider is registered with the type, key and URL the
   caller gave, and what was not given is as it was in the model's entry before.
   */
  lemma ProviderUpdateReaches(s: State, id: nat, f: ProviderFields, order: seq<nat>, x: nat)
    requires Tidy(s) && Coherent(s) && Listing(s.models, order) && ProviderUpdated(s, id, f, order).Success?
    requires x in s.models && s.models[x].enabled && s.models[x].providerId == Some(id) && InGateway(s.models[x])
    ensures var name, post := s.models[x].name, ProviderUpdated(s, id, f, order).value;
            && name in s.engines.gateway && s.engines.gateway[name].Remote? && name in post.engines.gateway
            && var was := s.engines.gateway[name];
               post.engines.gateway[name]
                 == Remote(Given(f.ptype, was.ptype), Given(f.apiKey, was.apiKey), Given(f.baseUrl, was.baseUrl))
  {
    var m, post := s.models[x], ProviderUpdated(s, id, f, order).value;
    GatewayRoute(m);
    assert LiveIn(s.providers, s.engines, m);
    UpdateProviderCoheres(s, id, f, order);
    assert post.models == s.models && LiveIn(post.providers, post.engines, m);
    UpdatedProviderExpects(s.providers[id], f);
  }

  /** Its row is what the caller gave, and what was not given as it was; models and other providers stay. */
  lemma ProviderUpdateRow(s: State, id: nat, f: ProviderFields, order: seq<nat>)
    requires (forall x | x in order :: x in s.models) && ProviderUpdated(s, id, f, order).Success?
    ensures var post := ProviderUpdated(s, id, f, order).value;
            && post.models == s.models && post.profiles == s.profiles && id in post.providers
            && (forall x :: x in post.providers <==> x in s.providers)
            && (forall x | x in s.providers && x != id :: post.providers[x] == s.providers[x])
            && var p, q := s.providers[id], post.providers[id];
               && q.name == Given(f.name, p.name) && q.ptype == Given(f.ptype, p.ptype)
               && q.baseUrl == Given(f.baseUrl, p.baseUrl) && q.enabled == Given(f.enabled, p.enabled)
               && q.apiKey == if f.apiKey.None? then p.apiKey
                              else if f.apiKey.value == "" then Blank else Sealed(f.apiKey.value)
  {
  }

  /** Creating adds one row under a fresh id, deleting takes one away; nothing else in the tables or engines moves. */
  lemma ProviderRows(s: State, n: NewProvider, id: nat)
    requires Tidy(s)
    ensures ProviderCreated(s, n).Success? ==>
            var post := ProviderCreated(s, n).value;
            && s.nextId !in s.providers && post.nextId == s.nextId + 1
            && (forall x :: x in post.providers <==> x in s.providers || x == s.nextId)
            && (forall x | x in s.providers :: post.providers[x] == s.providers[x])
            && var p := post.providers[s.nextId];
               && p.name == n.name && p.ptype == n.ptype && p.baseUrl == n.baseUrl && p.enabled == n.enabled
               && (match p.apiKey
                   case Blank => n.apiKey == ""
                   case Sealed(plain) => n.apiKey == plain != "")
               && post.models == s.models && post.profiles == s.profiles && post.engines == s.engines
    ensures ProviderDeleted(s, id).Success? ==>
            var post := ProviderDeleted(s, id).value;
            && (forall x :: x in post.providers <==> x in s.providers && x != id)
            && (forall x | x in post.providers :: post.providers[x] == s.providers[x])
            && post.models == s.models && post.profiles == s.profiles && post.engines == s.engines
  {
  }

  // ---- models ----

  /** A model update writes the fields given and keeps the others. */
  lemma ModelUpdateRow(s: State, id: nat, f: ModelFields)
    requires ModelUpdated(s, id, f).Success?
    ensures var post := ModelUpdated(s, id, f).value;
            && post.providers == s.providers && post.profiles == s.profiles && id in post.models
            && (forall x :: x in post.models <==> x in s.models)
            && (forall x | x in s.models && x != id :: post.models[x] == s.models[x])
            && var m, n := s.models[id], post.models[id];
               && n.name == Given(f.name, m.name) && n.mtype == Given(f.mtype, m.mtype)
               && n.provider == Given(f.provider, m.provider) && n.source == Given(f.source, m.source)
               && n.config == Given(f.config, m.config) && n.priority == Given(f.priority, m.priority)
               && n.enabled == Given(f.enabled, m.enabled)
               && n.providerId == (if f.providerId.Some? then f.providerId else m.providerId)
               && n.path == (if f.path.Some? then f.path else m.path)
               && n.dim == (if f.dim.Some? then f.dim else m.dim)
  {
  }

  /** What the engines must hold for an enabled model, engine by engine and field by field. */
  ghost predicate Served(s: State, m: Model) {
    && (InGateway(m) && m.providerId.None? ==>
          m.name in s.engines.gateway && s.engines.gateway[m.name] == Remote(m.provider, "", ""))
    && (InGateway(m) && m.providerId.Some? && m.providerId.value in s.providers ==>
          var p := s.providers[m.providerId.value];
          && m.name in s.engines.gateway && s.engines.gateway[m.name].Remote?
          && var e := s.engines.gateway[m.name];
             && e.ptype == p.ptype && e.baseUrl == p.baseUrl
             && match p.apiKey
                case Blank => e.apiKey == ""
                case Sealed(plain) => e.apiKey == plain)
    && (m.mtype == Embedding && m.source == Local ==>
          m.name in s.engines.embedding && s.engines.embedding[m.name] == Embedder(m.dim, m.path))
    && (m.mtype == Asr && m.source == Local && m.provider in {"sensevoice-onnx", "sensevoice-funasr"} ==>
          m.name in s.engines.asr && s.engines.asr[m.name] == Recognizer(m.path, m.config, m.provider))
  }

  lemma LiveIsServed(s: State, m: Model)
    requires m.enabled && LiveIn(s.providers, s.engines, m)
    ensures Served(s, m)
  {
  }

  /** In every run every enabled model is served, by the fields of its row and of its provider's. */
  lemma RunServes(states: seq<State>, actions: seq<Action>, k: nat, id: nat)
    requires IsRun(states, actions) && k < |states| && id in states[k].models && states[k].models[id].enabled
    ensures Served(states[k], states[k].models[id])
  {
    RunCoheres(states, actions, k);
    LiveIsServed(states[k], states[k].models[id]);
  }

  /** After a model update the model is served by its new row, or gone from the engine it routes to. */
  lemma ModelUpdateReaches(s: State, id: nat, f: ModelFields)
    requires Tidy(s) && Coherent(s) && ModelUpdated(s, id, f).Success?
    requires f != ModelFields(None, None, None, None, None, None, None, None, None, None)
    ensures var post := ModelUpdated(s, id, f).value;
            var m := post.models[id];
            if m.enabled then Served(post, m)
            else
              && (InGateway(m) ==> m.name !in post.engines.gateway)
              && (m.mtype == Embedding && m.source == Local ==> m.name !in post.engines.embedding)
              && (m.mtype == Asr && m.source == Local ==> m.name !in post.engines.asr)
  {
    var post := ModelUpdated(s, id, f).value;
    UpdateModelCoheres(s, id, f);
    assert LiveIn(post.providers, post.engines, post.models[id]);
    if post.models[id].enabled { LiveIsServed(post, post.models[id]); }
  }

  predicate Gone(engines: Engines, m: Model) {
    && (InGateway(m) ==> m.name !in engines.gateway)
    && (m.mtype == Embedding && m.source == Local ==> m.name !in engines.embedding)
    && (m.mtype == Asr && m.source == Local ==> m.name !in engines.asr)
  }

  /** Disabling and deleting take the model out of its engine; deleting also removes every profile that names it. */
  lemma RemovedIsGone(s: State, id: nat)
    requires id in s.models
    ensures var off := ModelDisabled(s, id);
            && Gone(off.engines, s.models[id])
            && off == s.(models := s.models[id := s.models[id].(enabled := false)], engines := off.engines)
    ensures ModelDeleted(s, id).Success?
    ensures var post := ModelDeleted(s, id).value;
            && Gone(post.engines, s.models[id]) && post.providers == s.providers
            && (forall x :: x in post.models <==> x in s.models && x != id)
            && (forall x | x in post.models :: post.models[x] == s.models[x])
            && (forall p :: p in post.profiles <==>
                  p in s.profiles && s.profiles[p].model != id && s.profiles[p].fallback != Some(id))
            && (forall p | p in post.profiles :: post.profiles[p] == s.profiles[p])
  {
  }

  /** Enabling serves the model as its row stands. */
  lemma EnabledIsServed(s: State, id: nat)
    requires Tidy(s) && Coherent(s) && id in s.models
    ensures var on := ModelEnabled(s, id);
            && on == s.(models := s.models[id := s.models[id].(enabled := true)], engines := on.engines)
            && Served(on, on.models[id])
  {
    SwitchCoheres(s, id);
    var on := ModelEnabled(s, id);
    assert LiveIn(on.providers, on.engines, on.models[id]);
    LiveIsServed(on, on.models[id]);
  }

  /** Loading all models serves every enabled one, whatever the engines held; a restart also drops what was stale. */
  lemma LoadingServes(s: State, order: seq<nat>, id: nat)
    requires Tidy(s) && Listing(s.models, order) && id in s.models && s.models[id].enabled
    ensures var loaded, restarted := After(s, LoadAll(order)), After(s, Restart(order));
            && loaded == s.(engines := loaded.engines) && Served(loaded, s.models[id])
            && restarted == s.(engines := restarted.engines) && Served(restarted, s.models[id])
            && Exact(restarted)
  {
    AllLoadedCohere(s, s.engines, order);
    AllLoadedCohere(s, NO_ENGINES, order);
    var loaded, restarted, m := After(s, LoadAll(order)), After(s, Restart(order)), s.models[id];
    assert LiveIn(loaded.providers, loaded.engines, m) && LiveIn(restarted.providers, restarted.engines, m);
    LiveIsServed(loaded, m);
    LiveIsServed(restarted, m);
    LoadedOwned(s.providers, s.models, NO_ENGINES, order);
  }

  /** A profile is created exactly under a free name and for models that exist. */
  lemma ProfileDecision(s: State, p: Profile)
    ensures ProfileCreated(s, p).Success? <==>
            && (forall x | x in s.profiles :: s.profiles[x].name != p.name)
            && p.model in s.models && (p.fallback.Some? ==> p.fallback.value in s.models)
    ensures ProfileCreated(s, p).Success? ==>
            ProfileCreated(s, p).value == s.(profiles := s.profiles[s.nextId := p], nextId := s.nextId + 1)
  {
  }
}
