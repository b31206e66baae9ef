/** The engines as caches of the tables, over every run of registry calls. */
module RegistryCoherence {
  import opened Wrappers
  import opened ModelRegistry

  /** `order`: the listing the database returns to that call. */
  datatype Action =
    | CreateProvider(provider: NewProvider)
    | UpdateProvider(id: nat, pf: ProviderFields, order: seq<nat>)
    | DeleteProvider(id: nat)
    | CreateModel(model: Model)
    | UpdateModel(id: nat, mf: ModelFields)
    | DeleteModel(id: nat)
    | EnableModel(id: nat)
    | DisableModel(id: nat)
    | CreateProfile(profile: Profile)
    /** All enabled models are loaded into the engines as they are, as at the first boot after seeding. */
    | LoadAll(order: seq<nat>)
    /** The process starts again with empty engines and loads all enabled models. */
    | Restart(order: seq<nat>)

  ghost predicate Enabled(s: State, a: Action) {
    a.UpdateProvider? || a.LoadAll? || a.Restart? ==> Listing(s.models, a.order)
  }

  function After(s: State, a: Action): State
    requires a.UpdateProvider? || a.LoadAll? || a.Restart? ==> forall x | x in a.order :: x in s.models
  {
    match a
    case CreateProvider(p) => OrSame(s, ProviderCreated(s, p))
    case UpdateProvider(id, f, order) => OrSame(s, ProviderUpdated(s, id, f, order))
    case DeleteProvider(id) => OrSame(s, ProviderDeleted(s, id))
    case CreateModel(m) => OrSame(s, ModelCreated(s, m))
    case UpdateModel(id, f) => OrSame(s, ModelUpdated(s, id, f))
    case DeleteModel(id) => OrSame(s, ModelDeleted(s, id))
    case EnableModel(id) => ModelEnabled(s, id)
    case DisableModel(id) => ModelDisabled(s, id)
    case CreateProfile(p) => OrSame(s, ProfileCreated(s, p))
    case LoadAll(order) => s.(engines := Loaded(s.providers, s.models, s.engines, order))
    case Restart(order) => s.(engines := Loaded(s.providers, s.models, NO_ENGINES, order))
  }

  const EMPTY := State(map[], map[], map[], 0, NO_ENGINES)

  ghost predicate IsRun(states: seq<State>, actions: seq<Action>) {
    && |states| == |actions| + 1
    && states[0] == EMPTY
    && forall i | 0 <= i < |actions| :: Enabled(states[i], actions[i]) && states[i + 1] == After(states[i], actions[i])
  }

  // ---- invariants ----

  /** The tables' own constraints: fresh ids, unique model names, providers that exist. */
  ghost predicate Tidy(s: State) {
    && (forall id | id in s.models :: id < s.nextId && References(s.providers, s.models[id].providerId))
    && (forall id | id in s.providers :: id < s.nextId)
    && (forall x, y | x in s.models && y in s.models && s.models[x].name == s.models[y].name :: x == y)
  }

  /** The slot of an engine a model occupies when loaded. */
  predicate Occupies(m: Model, k: Engine, name: string) {
    Route(m) == Some(k) && m.name == name && (k == ASR ==> RecognizerKnows(m.provider))
  }

  predicate LiveIn(providers: Providers, engines: Engines, m: Model) {
    m.enabled && Expected(providers, m).Some? ==>
      var t := engines.At(Route(m).value); m.name in t && t[m.name] == Expected(providers, m).value
  }

  /**
   Every enabled model that its engine does not refuse is live there, under its name and with its
   provider's current data.
   */
  ghost predicate Coherent(s: State) {
    forall id | id in s.models :: LiveIn(s.providers, s.engines, s.models[id])
  }

  ghost predicate Owned(models: Models, k: Engine, name: string) {
    exists id | id in models :: models[id].enabled && Occupies(models[id], k, name)
  }

  /** Nothing but enabled models is live. */
  ghost predicate Exact(s: State) {
    forall k, name | name in s.engines.At(k) :: Owned(s.models, k, name)
  }

  // ---- loading and unloading touch one slot ----

  lemma LoadSlot(providers: Providers, engines: Engines, m: Model, k: Engine, name: string)
    ensures var after := Load(providers, engines, m);
            if Occupies(m, k, name)
            then name in after.At(k) && Expected(providers, m) == Some(after.At(k)[name])
            else (name in after.At(k) <==> name in engines.At(k))
                 && (name in after.At(k) ==> after.At(k)[name] == engines.At(k)[name])
  {
  }

  lemma UnloadSlot(engines: Engines, m: Model, k: Engine, name: string)
    ensures var after := Unload(engines, m);
            && (name in after.At(k) <==> name in engines.At(k) && !(Route(m) == Some(k) && m.name == name))
            && (name in after.At(k) ==> after.At(k)[name] == engines.At(k)[name])
  {
  }

  lemma LoadLives(providers: Providers, engines: Engines, m: Model)
    ensures LiveIn(providers, Load(providers, engines, m), m)
  {
  }

  /** Loading or unloading one model does not disturb another name. */
  lemma OthersStay(providers: Providers, engines: Engines, m: Model, other: Model)
    requires m.name != other.name
    ensures LiveIn(providers, Load(providers, engines, m), other) <==> LiveIn(providers, engines, other)
    ensures LiveIn(providers, Unload(engines, m), other) <==> LiveIn(providers, engines, other)
  {
  }

  // ---- coherence, call by call ----

  lemma CreateModelCoheres(s: State, m: Model)
    requires Tidy(s) && Coherent(s) && ModelCreated(s, m).Success?
    ensures Coherent(ModelCreated(s, m).value)
  {
    var post := ModelCreated(s, m).value;
    LoadLives(s.providers, s.engines, m);
    forall id | id in post.models ensures LiveIn(post.providers, post.engines, post.models[id]) {
      if id != s.nextId { OthersStay(s.providers, s.engines, m, s.models[id]); }
    }
  }

  lemma UpdateModelCoheres(s: State, id: nat, f: ModelFields)
    requires Tidy(s) && Coherent(s) && ModelUpdated(s, id, f).Success?
    ensures Coherent(ModelUpdated(s, id, f).value)
  {
    var post := ModelUpdated(s, id, f).value;
    if post != s {
      var m := post.models[id];
      var unloaded := Unload(s.engines, m);
      LoadLives(s.providers, unloaded, m);
      forall x | x in post.models ensures LiveIn(post.providers, post.engines, post.models[x]) {
        if x != id {
          assert x in s.models - {id} && (s.models - {id})[x] == s.models[x];
          OthersStay(s.providers, s.engines, m, s.models[x]);
          OthersStay(s.providers, unloaded, m, s.models[x]);
        }
      }
    }
  }

  lemma SwitchCoheres(s: State, id: nat)
    requires Tidy(s) && Coherent(s)
    ensures Coherent(ModelEnabled(s, id)) && Coherent(ModelDisabled(s, id)) && Coherent(OrSame(s, ModelDeleted(s, id)))
  {
    if id in s.models {
      var m := s.models[id];
      LoadLives(s.providers, s.engines, m.(enabled := true));
      forall x | x in s.models && x != id
        ensures LiveIn(s.providers, Load(s.providers, s.engines, m.(enabled := true)), s.models[x])
        ensures LiveIn(s.providers, Unload(s.engines, m), s.models[x])
      {
        OthersStay(s.providers, s.engines, m.(enabled := true), s.models[x]);
        OthersStay(s.providers, s.engines, m, s.models[x]);
      }
    }
  }

  /** A model that does not use the provider expects the same entry after its update. */
  lemma ExpectedElsewhere(providers: Providers, id: nat, p: Provider, m: Model)
    requires id in providers && m.providerId != Some(id)
    ensures Expected(providers[id := p], m) == Expected(providers, m)
  {
  }

  lemma {:induction false} ReloadedCoheres(s: State, id: nat, p: Provider, order: seq<nat>, x: nat)
    requires Tidy(s) && Coherent(s) && id in s.providers && x in s.models
    requires forall y | y in order :: y in s.models
    requires s.models[x].providerId == Some(id) ==> x in order
    ensures var providers := s.providers[id := p];
            LiveIn(providers, Reloaded(providers, s.models, s.engines, id, order), s.models[x])
  {
    var m, providers := s.models[x], s.providers[id := p];
    if order == [] {
      ExpectedElsewhere(s.providers, id, p, m);
    } else {
      var front, last := order[..|order| - 1], order[|order| - 1];
      var before := Reloaded(providers, s.models, s.engines, id, front);
      var n := s.models[last];
      if last == x && m.providerId == Some(id) {
        LoadLives(providers, Unload(before, m), m);
      } else {
        assert order == front + [last];
        ReloadedCoheres(s, id, p, front, x);
        if last != x {
          OthersStay(providers, before, n, m);
          OthersStay(providers, Unload(before, n), n, m);
        }
      }
    }
  }

  lemma UpdateProviderCoheres(s: State, id: nat, f: ProviderFields, order: seq<nat>)
    requires Tidy(s) && Coherent(s) && Listing(s.models, order) && ProviderUpdated(s, id, f, order).Success?
    ensures Coherent(ProviderUpdated(s, id, f, order).value)
  {
    var post := ProviderUpdated(s, id, f, order).value;
    if post != s {
      forall x | x in post.models ensures LiveIn(post.providers, post.engines, post.models[x]) {
        ReloadedCoheres(s, id, WithFields(s.providers[id], f), order, x);
      }
    }
  }

  lemma {:induction false} LoadedCoheres(s: State, engines: Engines, order: seq<nat>, x: nat)
    requires Tidy(s) && x in order && forall y | y in order :: y in s.models
    ensures LiveIn(s.providers, Loaded(s.providers, s.models, engines, order), s.models[x])
  {
    var front, last := order[..|order| - 1], order[|order| - 1];
    var before := Loaded(s.providers, s.models, engines, front);
    if last == x {
      LoadLives(s.providers, before, s.models[x]);
    } else {
      assert order == front + [last];
      LoadedCoheres(s, engines, front, x);
      OthersStay(s.providers, before, s.models[last], s.models[x]);
    }
  }

  lemma AllLoadedCohere(s: State, engines: Engines, order: seq<nat>)
    requires Tidy(s) && Listing(s.models, order)
    ensures Coherent(s.(engines := Loaded(s.providers, s.models, engines, order)))
  {
    forall x | x in s.models ensures LiveIn(s.providers, Loaded(s.providers, s.models, engines, order), s.models[x]) {
      LoadedCoheres(s, engines, order, x);
    }
  }

  lemma DeleteProviderCoheres(s: State, id: nat)
    requires Coherent(s) && ProviderDeleted(s, id).Success?
    ensures Coherent(ProviderDeleted(s, id).value)
  {
  }

  lemma CreateProviderCoheres(s: State, p: NewProvider)
    requires Tidy(s) && Coherent(s) && ProviderCreated(s, p).Success?
    ensures Coherent(ProviderCreated(s, p).value)
  {
  }

  lemma ModelUpdatedTidy(s: State, id: nat, f: ModelFields)
    requires Tidy(s)
    ensures Tidy(OrSame(s, ModelUpdated(s, id, f)))
  {
    if id in s.models {
      var others := s.models - {id};
      assert forall x | x in s.models && x != id :: x in others && others[x] == s.models[x];
    }
  }

  lemma ModelCreatedTidy(s: State, m: Model)
    requires Tidy(s)
    ensures Tidy(OrSame(s, ModelCreated(s, m)))
  {
  }

  lemma StepTidy(s: State, a: Action)
    requires Tidy(s) && Enabled(s, a)
    ensures Tidy(After(s, a))
  {
    match a {
      case UpdateModel(id, f) => ModelUpdatedTidy(s, id, f);
      case CreateModel(m) => ModelCreatedTidy(s, m);
      case _ =>
    }
    hide ModelUpdated, ModelCreated;
  }

  lemma StepCoheres(s: State, a: Action)
    requires Tidy(s) && Coherent(s) && Enabled(s, a)
    ensures Coherent(After(s, a))
  {
    hide LiveIn, Tidy, Reloaded, Loaded;
    match a {
      case CreateProvider(p) => if ProviderCreated(s, p).Success? { CreateProviderCoheres(s, p); }
      case UpdateProvider(id, f, order) =>
        if ProviderUpdated(s, id, f, order).Success? { UpdateProviderCoheres(s, id, f, order); }
      case DeleteProvider(id) => if ProviderDeleted(s, id).Success? { DeleteProviderCoheres(s, id); }
      case CreateModel(m) => if ModelCreated(s, m).Success? { CreateModelCoheres(s, m); }
      case UpdateModel(id, f) => if ModelUpdated(s, id, f).Success? { UpdateModelCoheres(s, id, f); }
      case DeleteModel(id) => SwitchCoheres(s, id);
      case EnableModel(id) => SwitchCoheres(s, id);
      case DisableModel(id) => SwitchCoheres(s, id);
      case CreateProfile(_) =>
      case LoadAll(order) =>
        AllLoadedCohere(s, s.engines, order);
      case Restart(order) =>
        AllLoadedCohere(s, NO_ENGINES, order);
    }
  }

  /**
   After any sequence of registry calls, whatever they rename, retype or move, every enabled model that its
   engine does not refuse is live in the engine its type and source route to, under its current name and
   with its provider's current data.
   */
  lemma {:induction false} RunCoheres(states: seq<State>, actions: seq<Action>, k: nat)
    requires IsRun(states, actions) && k < |states|
    ensures Tidy(states[k]) && Coherent(states[k])
  {
    if k > 0 {
      RunCoheres(states, actions, k - 1);
      StepTidy(states[k - 1], actions[k - 1]);
      StepCoheres(states[k - 1], actions[k - 1]);
    }
  }

  // ---- nothing else is live ----

  lemma LoadOwned(providers: Providers, engines: Engines, models: Models, id: nat)
    requires id in models && models[id].enabled
    requires forall k, name | name in engines.At(k) :: Owned(models, k, name)
    ensures forall k, name | name in Load(providers, engines, models[id]).At(k) :: Owned(models, k, name)
  {
    forall k, name | name in Load(providers, engines, models[id]).At(k) ensures Owned(models, k, name) {
      LoadSlot(providers, engines, models[id], k, name);
    }
  }

  lemma UnloadOwned(engines: Engines, models: Models, m: Model)
    requires forall k, name | name in engines.At(k) :: Owned(models, k, name)
    ensures forall k, name | name in Unload(engines, m).At(k) :: Owned(models, k, name)
  {
    forall k, name | name in Unload(engines, m).At(k) ensures Owned(models, k, name) {
      UnloadSlot(engines, m, k, name);
    }
  }

  lemma {:induction false} ReloadedOwned(providers: Providers, models: Models, engines: Engines, id: nat,
                                              order: seq<nat>)
    requires forall y | y in order :: y in models
    requires forall k, name | name in engines.At(k) :: Owned(models, k, name)
    ensures forall k, name | name in Reloaded(providers, models, engines, id, order).At(k) :: Owned(models, k, name)
  {
    if order != [] {
      var front, last := order[..|order| - 1], order[|order| - 1];
      ReloadedOwned(providers, models, engines, id, front);
      var before := Reloaded(providers, models, engines, id, front);
      UnloadOwned(before, models, models[last]);
      if models[last].enabled { LoadOwned(providers, Unload(before, models[last]), models, last); }
    }
  }

  lemma {:induction false} LoadedOwned(providers: Providers, models: Models, engines: Engines, order: seq<nat>)
    requires forall y | y in order :: y in models
    requires forall k, name | name in engines.At(k) :: Owned(models, k, name)
    ensures forall k, name | name in Loaded(providers, models, engines, order).At(k) :: Owned(models, k, name)
  {
    if order != [] {
      var front, last := order[..|order| - 1], order[|order| - 1];
      LoadedOwned(providers, models, engines, front);
      if models[last].enabled { LoadOwned(providers, Loaded(providers, models, engines, front), models, last); }
    }
  }

  /** When only model `id` is replaced or removed, every slot that was not its own keeps its owner. */
  lemma OwnedElsewhere(models: Models, post: Models, id: nat, k: Engine, name: string)
    requires forall x | x in models && x != id :: x in post && post[x] == models[x]
    requires Owned(models, k, name)
    requires id in models && models[id].enabled ==> !Occupies(models[id], k, name)
    ensures Owned(post, k, name)
  {
  }

  lemma CreateModelExact(s: State, m: Model)
    requires Tidy(s) && Exact(s) && ModelCreated(s, m).Success?
    ensures Exact(ModelCreated(s, m).value)
  {
    var post := ModelCreated(s, m).value;
    forall k, name | name in s.engines.At(k) ensures Owned(post.models, k, name) {
      OwnedElsewhere(s.models, post.models, s.nextId, k, name);
    }
    if m.enabled { LoadOwned(s.providers, s.engines, post.models, s.nextId); }
  }

  /** Deleting and disabling unload by the row that was loaded. */
  lemma RemovalExact(s: State, id: nat, post: Models)
    requires Exact(s) && id in s.models
    requires forall x | x in s.models && x != id :: x in post && post[x] == s.models[x]
    ensures forall k, name | name in Unload(s.engines, s.models[id]).At(k) :: Owned(post, k, name)
  {
    forall k, name | name in Unload(s.engines, s.models[id]).At(k) ensures Owned(post, k, name) {
      UnloadSlot(s.engines, s.models[id], k, name);
      OwnedElsewhere(s.models, post, id, k, name);
    }
  }

  lemma EnableExact(s: State, id: nat)
    requires Exact(s)
    ensures Exact(ModelEnabled(s, id))
  {
    if id in s.models {
      var post := ModelEnabled(s, id).models;
      forall k, name | name in s.engines.At(k) ensures Owned(post, k, name) {
        var x :| x in s.models && s.models[x].enabled && Occupies(s.models[x], k, name);
        assert x in post && post[x].enabled && Occupies(post[x], k, name);
      }
      LoadOwned(s.providers, s.engines, post, id);
    }
  }

  // ---- the one call that can leave something behind ----

  /** The old model is not live, or its name and its engine stay the same. */
  predicate Careful(s: State, id: nat, f: ModelFields)
    requires id in s.models
  {
    var m := s.models[id];
    var m' := WithModelFields(m, f);
    || !m.enabled || Route(m).None? || (Route(m) == Some(ASR) && !RecognizerKnows(m.provider))
    || (Route(m') == Route(m) && m'.name == m.name)
  }

  lemma UpdateModelExact(s: State, id: nat, f: ModelFields)
    requires Tidy(s) && Exact(s) && ModelUpdated(s, id, f).Success? && Careful(s, id, f)
    ensures Exact(ModelUpdated(s, id, f).value)
  {
    var post := ModelUpdated(s, id, f).value;
    if post != s {
      var m := post.models[id];
      var unloaded := Unload(s.engines, m);
      forall k, name | name in unloaded.At(k) ensures Owned(post.models, k, name) {
        UnloadSlot(s.engines, m, k, name);
        OwnedElsewhere(s.models, post.models, id, k, name);
      }
      if m.enabled { LoadOwned(s.providers, unloaded, post.models, id); }
    }
  }

  lemma CarelessLeavesStale(s: State, id: nat, f: ModelFields)
    requires Tidy(s) && Coherent(s) && ModelUpdated(s, id, f).Success? && !Careful(s, id, f)
    ensures var m, post := s.models[id], ModelUpdated(s, id, f).value;
            m.name in post.engines.At(Route(m).value) && !Owned(post.models, Route(m).value, m.name)
  {
    var m, post := s.models[id], ModelUpdated(s, id, f).value;
    var m', k := post.models[id], Route(m).value;
    assert LiveIn(s.providers, s.engines, m);
    UnloadSlot(s.engines, m', k, m.name);
    LoadSlot(s.providers, Unload(s.engines, m'), m', k, m.name);
    forall x | x in post.models && post.models[x].enabled ensures !Occupies(post.models[x], k, m.name) {
      if x != id { assert post.models[x] == s.models[x]; }
    }
  }

  /**
   `update_model` unloads by the row it has just written: it leaves a stale entry in an engine exactly
   when a live model is renamed or moved to another engine.
   */
  lemma UpdateIsExactIff(states: seq<State>, actions: seq<Action>, k: nat)
    requires IsRun(states, actions) && k < |actions| && Exact(states[k])
    requires actions[k].UpdateModel? && ModelUpdated(states[k], actions[k].id, actions[k].mf).Success?
    ensures Exact(states[k + 1]) <==> Careful(states[k], actions[k].id, actions[k].mf)
  {
    RunCoheres(states, actions, k);
    var s, id, f := states[k], actions[k].id, actions[k].mf;
    if Careful(s, id, f) { UpdateModelExact(s, id, f); } else { CarelessLeavesStale(s, id, f); }
  }

  ghost predicate CarefulStep(s: State, a: Action) {
    a.UpdateModel? && a.id in s.models ==> Careful(s, a.id, a.mf)
  }

  /** An update that keeps name, type and source is careful. */
  lemma KeepingTheSlotIsCareful(s: State, id: nat, f: ModelFields)
    requires id in s.models && f.name.None? && f.mtype.None? && f.source.None?
    ensures Careful(s, id, f)
  {
  }

  lemma StepExact(s: State, a: Action)
    requires Tidy(s) && Exact(s) && Enabled(s, a) && CarefulStep(s, a)
    ensures Exact(After(s, a))
  {
    hide Owned, Tidy, Careful;
    match a {
      case CreateProvider(_) =>
      case UpdateProvider(id, f, order) =>
        if id in s.providers {
          ReloadedOwned(s.providers[id := WithFields(s.providers[id], f)], s.models, s.engines, id, order);
        }
      case DeleteProvider(_) =>
      case CreateModel(m) => if ModelCreated(s, m).Success? { CreateModelExact(s, m); }
      case UpdateModel(id, f) => if ModelUpdated(s, id, f).Success? { UpdateModelExact(s, id, f); }
      case DeleteModel(id) => if id in s.models { RemovalExact(s, id, s.models - {id}); }
      case EnableModel(id) => EnableExact(s, id);
      case DisableModel(id) =>
        if id in s.models { RemovalExact(s, id, s.models[id := s.models[id].(enabled := false)]); }
      case CreateProfile(_) =>
      case LoadAll(order) => LoadedOwned(s.providers, s.models, s.engines, order);
      case Restart(order) => LoadedOwned(s.providers, s.models, NO_ENGINES, order);
    }
  }

  /** In runs of careful updates nothing but the enabled models is ever live. */
  lemma {:induction false} CarefulRunIsExact(states: seq<State>, actions: seq<Action>, k: nat)
    requires IsRun(states, actions) && k < |states|
    requires forall i | 0 <= i < k :: CarefulStep(states[i], actions[i])
    ensures Exact(states[k])
  {
    if k > 0 {
      CarefulRunIsExact(states, actions, k - 1);
      RunCoheres(states, actions, k - 1);
      StepExact(states[k - 1], actions[k - 1]);
    }
  }

  /** A rename that leaves the old name answering, from empty tables. */
  lemma RenameLeavesOldName() returns (states: seq<State>, actions: seq<Action>)
    ensures IsRun(states, actions) && !Exact(states[|states| - 1])
    ensures "a" in states[|states| - 1].engines.gateway && !ModelNamed(states[|states| - 1].models, "a")
  {
    var m := Model("a", Chat, "openai", None, External, None, "{}", None, 100, true);
    var f := ModelFields(Some("b"), None, None, None, None, None, None, None, None, None);
    actions := [CreateModel(m), UpdateModel(0, f)];
    var s1 := After(EMPTY, actions[0]);
    assert s1 == State(map[], map[0 := m], map[], 1, Engines(map["a" := Remote("openai", "", "")], map[], map[]));
    var s2 := After(s1, actions[1]);
    assert s1.models - {0} == map[];
    states := [EMPTY, s1, s2];
    assert "a" != "b";
    assert "a" in s2.engines.At(GATEWAY) && !Owned(s2.models, GATEWAY, "a");
  }

  // ---- exactly when a model is live ----

  /** The engine the model routes to accepts it: only the recognizer refuses models. */
  predicate Accepted(m: Model) {
    Route(m).Some? && (Route(m).value == ASR ==> RecognizerKnows(m.provider))
  }

  /** In every run an enabled model that its engine accepts is live with the entry the tables say. */
  lemma AcceptedIsLive(states: seq<State>, actions: seq<Action>, k: nat, id: nat)
    requires IsRun(states, actions) && k < |states| && id in states[k].models
    requires states[k].models[id].enabled && Accepted(states[k].models[id])
    ensures var s, m := states[k], states[k].models[id];
            && m.name in s.engines.At(Route(m).value)
            && Expected(s.providers, m) == Some(s.engines.At(Route(m).value)[m.name])
  {
    RunCoheres(states, actions, k);
    assert LiveIn(states[k].providers, states[k].engines, states[k].models[id]);
  }

  /**
   In runs of careful updates a name answers in an engine exactly when an enabled model of that name
   routes there and the engine accepts it. In particular a routed model, enabled or not, is live exactly
   when it is enabled and accepted.
   */
  lemma LiveExactly(states: seq<State>, actions: seq<Action>, k: nat, e: Engine, name: string)
    requires IsRun(states, actions) && k < |states|
    requires forall i | 0 <= i < k :: CarefulStep(states[i], actions[i])
    ensures name in states[k].engines.At(e) <==>
            exists id | id in states[k].models ::
              var m := states[k].models[id];
              m.name == name && m.enabled && Route(m) == Some(e) && Accepted(m)
    ensures forall id | id in states[k].models && states[k].models[id].name == name
                        && Route(states[k].models[id]) == Some(e) ::
              name in states[k].engines.At(e) <==> states[k].models[id].enabled && Accepted(states[k].models[id])
  {
    var s := states[k];
    RunCoheres(states, actions, k);
    CarefulRunIsExact(states, actions, k);
    if name in s.engines.At(e) {
      assert Owned(s.models, e, name);
      var id :| id in s.models && s.models[id].enabled && Occupies(s.models[id], e, name);
    }
    forall id | id in s.models && s.models[id].enabled && s.models[id].name == name
                && Route(s.models[id]) == Some(e) && Accepted(s.models[id])
      ensures name in s.engines.At(e)
    {
      AcceptedIsLive(states, actions, k, id);
    }
  }

  /** A local speech model of the default provider, enabled and refused by the recognizer. */
  lemma EnabledButNotLive() returns (states: seq<State>, actions: seq<Action>)
    ensures IsRun(states, actions)
    ensures var s := states[|states| - 1];
            && 0 in s.models && s.models[0].enabled && Route(s.models[0]) == Some(ASR)
            && s.models[0].name !in s.engines.asr
  {
    var m := Model("w", Asr, "faster-whisper", None, Local, None, "{}", None, 100, true);
    actions := [CreateModel(m)];
    assert "faster-whisper"[0] != "sensevoice-onnx"[0] && "faster-whisper"[0] != "sensevoice-funasr"[0];
    states := [EMPTY, After(EMPTY, actions[0])];
  }

  /** After a careless rename, a refused model's name can answer with the entry of an earlier model. */
  lemma RefusedNameCanAnswer() returns (states: seq<State>, actions: seq<Action>)
    ensures IsRun(states, actions)
    ensures var s := states[|states| - 1];
            && 1 in s.models && s.models[1].enabled && Route(s.models[1]) == Some(ASR) && !Accepted(s.models[1])
            && s.models[1].name in s.engines.asr
  {
    var known := Model("w", Asr, "sensevoice-onnx", None, Local, None, "{}", None, 100, true);
    var refused := known.(provider := "faster-whisper");
    var f := ModelFields(Some("x"), None, None, None, None, None, None, None, None, None);
    assert "faster-whisper"[0] != "sensevoice-onnx"[0] && "faster-whisper"[0] != "sensevoice-funasr"[0];
    var entry := Recognizer(None, "{}", "sensevoice-onnx");
    actions := [CreateModel(known), UpdateModel(0, f), CreateModel(refused)];
    var s1 := After(EMPTY, actions[0]);
    assert s1 == State(map[], map[0 := known], map[], 1, Engines(map[], map[], map["w" := entry]));
    var s2 := After(s1, actions[1]);
    assert s1.models - {0} == map[];
    assert "w" in s2.engines.asr && s2.models == map[0 := known.(name := "x")] && s2.nextId == 1;
    states := [EMPTY, s1, s2, After(s2, actions[2])];
  }
}
