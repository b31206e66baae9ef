/** Lazy loading of embedding models with double-checked locking, one step of one thread at a time. */
module EmbeddingLock {
  import opened Wrappers

  /** Where a thread stands in `embed` or `unregister`, and with which model name. */
  datatype Pc =
    | Idle
    | Check(name: string)         // before the check outside the lock
    | Want(name: string)          // waiting for the lock
    | Recheck(name: string)       // holding the lock, before the second check
    | Construct(name: string)     // holding the lock, loading the model
    | Store(name: string)         // holding the lock, the new model in hand
    | Release(name: string)       // about to leave the lock
    | Read(name: string)          // before the read outside the lock
    | Served(name: string)
    | KeyError(name: string)      // the read found nothing
    | Crashed(name: string)       // loading raised
    | UnregisterWant(name: string)
    | Pop(name: string)           // holding the lock, before the removal
    | UnregisterRelease(name: string)

  predicate InLock(pc: Pc) {
    pc.Recheck? || pc.Construct? || pc.Store? || pc.Release? || pc.Pop? || pc.UnregisterRelease?
  }

  /**
   `models`: the names with a loaded model. `built`, `removed` and `calls` only count: models constructed,
   models removed and calls of `unregister`, by name.
   */
  datatype State = State(models: set<string>, holder: Option<nat>, pcs: seq<Pc>,
                         built: multiset<string>, removed: multiset<string>, calls: multiset<string>)

  datatype Step =
    | Embed(t: nat, name: string)
    | Unregister(t: nat, name: string)
    | Advance(t: nat)
    /** Loading the model raises, which leaves the lock. */
    | Raise(t: nat)

  predicate AtRest(pc: Pc) {
    pc.Idle? || pc.Served? || pc.KeyError? || pc.Crashed?
  }

  predicate Enabled(s: State, step: Step) {
    && step.t < |s.pcs|
    && match step
       case Embed(t, _) => AtRest(s.pcs[t])
       case Unregister(t, _) => AtRest(s.pcs[t])
       case Advance(t) => !AtRest(s.pcs[t]) && (s.pcs[t].Want? || s.pcs[t].UnregisterWant? ==> s.holder.None?)
       case Raise(t) => s.pcs[t].Construct?
  }

  /** Where a thread goes next; the two checks and the read depend on whether the model is loaded. */
  function Target(pc: Pc, loaded: bool): Pc
    requires !AtRest(pc)
  {
    match pc
    case Check(name) => if loaded then Read(name) else Want(name)
    case Want(name) => Recheck(name)
    case Recheck(name) => if loaded then Release(name) else Construct(name)
    case Construct(name) => Store(name)
    case Store(name) => Release(name)
    case Release(name) => Read(name)
    case Read(name) => if loaded then Served(name) else KeyError(name)
    case UnregisterWant(name) => Pop(name)
    case Pop(name) => UnregisterRelease(name)
    case UnregisterRelease(name) => Idle
  }

  function Next(s: State, step: Step): State
    requires Enabled(s, step)
  {
    var t := step.t;
    match step
    case Embed(_, name) => s.(pcs := s.pcs[t := Check(name)])
    case Unregister(_, name) => s.(pcs := s.pcs[t := UnregisterWant(name)], calls := s.calls + multiset{name})
    case Raise(_) => s.(pcs := s.pcs[t := Crashed(s.pcs[t].name)], holder := None)
    case Advance(_) =>
      var pc := s.pcs[t];
      var loaded := pc.name in s.models;
      State(if pc.Store? then s.models + {pc.name} else if pc.Pop? then s.models - {pc.name} else s.models,
            if pc.Want? || pc.UnregisterWant? then Some(t)
            else if pc.Release? || pc.UnregisterRelease? then None else s.holder,
            s.pcs[t := Target(pc, loaded)],
            if pc.Construct? then s.built + multiset{pc.name} else s.built,
            if pc.Pop? && loaded then s.removed + multiset{pc.name} else s.removed,
            s.calls)
  }

  ghost predicate Init(s: State) {
    && s.models == {} && s.holder.None? && (forall t | 0 <= t < |s.pcs| :: s.pcs[t] == Idle)
    && s.built == multiset{} && s.removed == multiset{} && s.calls == multiset{}
  }

  ghost predicate IsRun(states: seq<State>, steps: seq<Step>) {
    && |states| == |steps| + 1 && Init(states[0])
    && forall i | 0 <= i < |steps| :: Enabled(states[i], steps[i]) && states[i + 1] == Next(states[i], steps[i])
  }

  // ---- invariants ----

  /** The lock excludes, and whoever loads a model under it found it missing. */
  ghost predicate Exclusive(s: State) {
    && (forall t: nat | t < |s.pcs| :: InLock(s.pcs[t]) <==> s.holder == Some(t))
    && (s.holder.Some? ==> s.holder.value < |s.pcs|)
    && (forall t: nat | t < |s.pcs| && (s.pcs[t].Construct? || s.pcs[t].Store?) :: s.pcs[t].name !in s.models)
  }

  /** A model of that name has been constructed and waits to be stored. */
  predicate InHand(s: State, name: string) {
    s.holder.Some? && s.holder.value < |s.pcs| && s.pcs[s.holder.value] == Store(name)
  }

  predicate Balanced(s: State, name: string) {
    s.built[name] == s.removed[name] + (if name in s.models then 1 else 0) + (if InHand(s, name) then 1 else 0)
  }

  /** The thread has called `unregister` for the name and not yet removed it. */
  function Pending(pc: Pc, name: string): nat {
    if pc == UnregisterWant(name) || pc == Pop(name) then 1 else 0
  }

  function AllPending(pcs: seq<Pc>, name: string): nat {
    if pcs == [] then 0 else AllPending(pcs[..|pcs| - 1], name) + Pending(pcs[|pcs| - 1], name)
  }

  lemma {:induction false} PendingAfter(pcs: seq<Pc>, t: nat, pc: Pc, name: string)
    requires t < |pcs|
    ensures AllPending(pcs[t := pc], name) + Pending(pcs[t], name) == AllPending(pcs, name) + Pending(pc, name)
  {
    var n := |pcs| - 1;
    if t < n {
      assert pcs[t := pc][..n] == pcs[..n][t := pc];
      PendingAfter(pcs[..n], t, pc, name);
    } else {
      assert pcs[t := pc][..n] == pcs[..n];
    }
  }

  /** Every call is still pending, or has found the model and removed it, or found nothing. */
  predicate Accounted(s: State, name: string) {
    s.removed[name] + AllPending(s.pcs, name) <= s.calls[name]
  }

  lemma StepExclusive(s: State, step: Step)
    requires Exclusive(s) && Enabled(s, step)
    ensures Exclusive(Next(s, step))
  {
  }

  lemma StepBalanced(s: State, step: Step, name: string)
    requires Exclusive(s) && Enabled(s, step) && Balanced(s, name)
    ensures Balanced(Next(s, step), name)
  {
  }

  lemma StepAccounted(s: State, step: Step, name: string)
    requires Enabled(s, step) && Accounted(s, name)
    ensures Accounted(Next(s, step), name)
  {
    PendingAfter(s.pcs, step.t, Next(s, step).pcs[step.t], name);
    assert Next(s, step).pcs == s.pcs[step.t := Next(s, step).pcs[step.t]];
  }

  lemma {:induction false} NonePending(pcs: seq<Pc>, name: string)
    requires forall t | 0 <= t < |pcs| :: pcs[t] == Idle
    ensures AllPending(pcs, name) == 0
  {
    if pcs != [] { NonePending(pcs[..|pcs| - 1], name); }
  }

  lemma {:induction false} RunKeeps(states: seq<State>, steps: seq<Step>, k: nat, name: string)
    requires IsRun(states, steps) && k < |states|
    ensures Exclusive(states[k]) && Balanced(states[k], name) && Accounted(states[k], name)
  {
    if k == 0 {
      NonePending(states[0].pcs, name);
    } else {
      RunKeeps(states, steps, k - 1, name);
      StepExclusive(states[k - 1], steps[k - 1]);
      StepBalanced(states[k - 1], steps[k - 1], name);
      StepAccounted(states[k - 1], steps[k - 1], name);
    }
  }

  /**
   However the threads interleave, a model has been constructed once more than it has been removed when it
   is loaded (or about to be stored by the holder of the lock) and as often otherwise; so it is never
   constructed more often than `unregister` was called for it, plus one.
   */
  lemma ConstructionsAreBounded(states: seq<State>, steps: seq<Step>, k: nat, name: string)
    requires IsRun(states, steps) && k < |states|
    ensures var s := states[k];
            && s.built[name] == s.removed[name] + (if name in s.models || InHand(s, name) then 1 else 0)
            && !(name in s.models && InHand(s, name))
            && (s.holder.None? ==> !InHand(s, name))
            && s.built[name] <= s.calls[name] + 1
  {
    RunKeeps(states, steps, k, name);
  }

  /** At most one thread is inside the lock. */
  lemma MutualExclusion(states: seq<State>, steps: seq<Step>, k: nat, t: nat, u: nat)
    requires IsRun(states, steps) && k < |states| && t < |states[k].pcs| && u < |states[k].pcs|
    requires InLock(states[k].pcs[t]) && InLock(states[k].pcs[u])
    ensures t == u
  {
    RunKeeps(states, steps, k, "");
  }

  // ---- the read outside the lock ----

  /** Step `p` removes the name from the loaded models. */
  predicate Pops(states: seq<State>, steps: seq<Step>, p: nat, name: string)
    requires |states| == |steps| + 1
  {
    p < |steps| && steps[p].Advance? && steps[p].t < |states[p].pcs| && states[p].pcs[steps[p].t] == Pop(name)
  }

  /** Step `p` stores a model under the name. */
  predicate Stores(states: seq<State>, steps: seq<Step>, p: nat, name: string)
    requires |states| == |steps| + 1
  {
    p < |steps| && steps[p].Advance? && steps[p].t < |states[p].pcs| && states[p].pcs[steps[p].t] == Store(name)
  }

  /** Step `p` is where thread `t` finds the model, under the lock or not, or stores it. */
  predicate Finds(states: seq<State>, steps: seq<Step>, p: nat, t: nat, name: string)
    requires |states| == |steps| + 1
  {
    && p < |steps| && steps[p] == Advance(t) && t < |states[p].pcs|
    && (states[p].pcs[t] == Store(name)
        || (name in states[p].models && (states[p].pcs[t] == Check(name) || states[p].pcs[t] == Recheck(name))))
  }

  /** Some `unregister` removes the name between the states `i` and `k`, and no thread stores it afterwards. */
  ghost predicate RemovedSince(states: seq<State>, steps: seq<Step>, i: nat, k: nat, name: string)
    requires |states| == |steps| + 1 && k <= |steps|
  {
    exists p: nat | i <= p < k && Pops(states, steps, p, name) ::
      forall q: nat | p < q < k :: !Stores(states, steps, q, name)
  }

  lemma ModelsAfter(states: seq<State>, steps: seq<Step>, p: nat, name: string)
    requires IsRun(states, steps) && p < |steps|
    ensures name in states[p + 1].models <==>
            Stores(states, steps, p, name) || (name in states[p].models && !Pops(states, steps, p, name))
    ensures !(Stores(states, steps, p, name) && Pops(states, steps, p, name))
  {
    assert Enabled(states[p], steps[p]) && states[p + 1] == Next(states[p], steps[p]);
  }

  /** A name that was loaded is gone exactly when the last step that touched it since was a removal. */
  lemma {:induction false} GoneExactly(states: seq<State>, steps: seq<Step>, i: nat, k: nat, name: string)
    requires IsRun(states, steps) && i <= k < |states| && name in states[i].models
    ensures name !in states[k].models <==> RemovedSince(states, steps, i, k, name)
    decreases k
  {
    NoneRemovedYet(states, steps, i, name);
    hide IsRun, RemovedSince, Pops, Stores;
    if i < k {
      GoneExactly(states, steps, i, k - 1, name);
      ModelsAfter(states, steps, k - 1, name);
      RemovedOneMore(states, steps, i, k - 1, name);
    }
  }

  lemma NoneRemovedYet(states: seq<State>, steps: seq<Step>, i: nat, name: string)
    requires |states| == |steps| + 1 && i <= |steps|
    ensures !RemovedSince(states, steps, i, i, name)
  {
  }

  lemma RemovedOneMore(states: seq<State>, steps: seq<Step>, i: nat, k: nat, name: string)
    requires |states| == |steps| + 1 && i <= k < |steps|
    ensures RemovedSince(states, steps, i, k + 1, name) <==>
            Pops(states, steps, k, name) || (RemovedSince(states, steps, i, k, name) && !Stores(states, steps, k, name))
  {
    if RemovedSince(states, steps, i, k + 1, name) {
      var p: nat :| i <= p < k + 1 && Pops(states, steps, p, name)
                    && forall q: nat | p < q < k + 1 :: !Stores(states, steps, q, name);
      assert p == k || RemovedSince(states, steps, i, k, name);
    }
    if RemovedSince(states, steps, i, k, name) && !Stores(states, steps, k, name) {
      var p: nat :| i <= p < k && Pops(states, steps, p, name)
                    && forall q: nat | p < q < k :: !Stores(states, steps, q, name);
      assert forall q: nat | p < q < k + 1 :: !Stores(states, steps, q, name);
    }
  }

  /** Standing before the read, or before leaving the lock for it. */
  predicate Reading(pc: Pc, name: string) {
    pc == Read(name) || pc == Release(name)
  }

  lemma CameToRead(s: State, step: Step, t: nat, name: string)
    requires Enabled(s, step) && t < |s.pcs| && Reading(Next(s, step).pcs[t], name) && !Reading(s.pcs[t], name)
    ensures step == Advance(t) && name in Next(s, step).models
    ensures s.pcs[t] == Store(name) || (name in s.models && (s.pcs[t] == Check(name) || s.pcs[t] == Recheck(name)))
  {
  }

  /** Whoever is about to read, or to leave the lock for the read, has found or stored the model in this call. */
  lemma {:induction false} ReaderHasFound(states: seq<State>, steps: seq<Step>, k: nat, t: nat, name: string)
    returns (i: nat)
    requires IsRun(states, steps) && k < |states| && t < |states[k].pcs|
    requires Reading(states[k].pcs[t], name)
    ensures i < k && Finds(states, steps, i, t, name) && name in states[i + 1].models
    ensures forall x: nat | i < x <= k :: t < |states[x].pcs| && Reading(states[x].pcs[t], name)
  {
    var s, step := states[k - 1], steps[k - 1];
    assert Enabled(s, step) && states[k] == Next(s, step);
    assert |s.pcs| == |states[k].pcs|;
    if Reading(s.pcs[t], name) {
      hide Next, Enabled, Reading;
      i := ReaderHasFound(states, steps, k - 1, t, name);
    } else {
      CameToRead(s, step, t, name);
      i := k - 1;
    }
  }

  /**
   The read outside the lock misses exactly when, since this call of `embed` found or stored the model,
   some `unregister` removed it and nobody has stored it again.
   */
  lemma ReadMissesExactly(states: seq<State>, steps: seq<Step>, k: nat, name: string) returns (i: nat)
    requires IsRun(states, steps) && k < |steps| && steps[k].Advance?
    requires states[k].pcs[steps[k].t] == Read(name)
    ensures i < k && Finds(states, steps, i, steps[k].t, name)
    ensures forall x: nat | i < x <= k ::
              steps[k].t < |states[x].pcs| && Reading(states[x].pcs[steps[k].t], name)
    ensures states[k + 1].pcs[steps[k].t] == KeyError(name) <==> RemovedSince(states, steps, i + 1, k, name)
    ensures states[k + 1].pcs[steps[k].t] == Served(name) <==> !RemovedSince(states, steps, i + 1, k, name)
  {
    assert Enabled(states[k], steps[k]) && states[k + 1] == Next(states[k], steps[k]);
    i := ReaderHasFound(states, steps, k, steps[k].t, name);
    GoneExactly(states, steps, i + 1, k, name);
  }

  /** The same from any state in which the name is loaded: a later miss needs a removal in between. */
  lemma MissNeedsRemovalSince(states: seq<State>, steps: seq<Step>, i: nat, k: nat, name: string)
    requires IsRun(states, steps) && i <= k < |steps| && steps[k].Advance? && name in states[i].models
    requires states[k].pcs[steps[k].t] == Read(name)
    ensures states[k + 1].pcs[steps[k].t] == KeyError(name) <==> RemovedSince(states, steps, i, k, name)
  {
    assert Enabled(states[k], steps[k]) && states[k + 1] == Next(states[k], steps[k]);
    GoneExactly(states, steps, i, k, name);
  }

  lemma RemovalIsCounted(s: State, step: Step, name: string)
    requires Enabled(s, step)
    ensures var post := Next(s, step);
            post.removed[name] == s.removed[name] + if name in s.models && name !in post.models then 1 else 0
  {
  }

  lemma {:induction false} RemovedOnlyGrows(states: seq<State>, steps: seq<Step>, i: nat, k: nat, name: string)
    requires IsRun(states, steps) && i <= k < |states|
    ensures states[i].removed[name] <= states[k].removed[name]
    ensures name in states[i].models && name !in states[k].models ==> states[i].removed[name] < states[k].removed[name]
    decreases k
  {
    if i < k {
      RemovedOnlyGrows(states, steps, i, k - 1, name);
      assert Enabled(states[k - 1], steps[k - 1]) && states[k] == Next(states[k - 1], steps[k - 1]);
      RemovalIsCounted(states[k - 1], steps[k - 1], name);
      hide Next, Enabled;
    }
  }

  /** A miss costs a removal made during this very call: the count of removals has grown since it found the model. */
  lemma MissOnlyAfterRemoval(states: seq<State>, steps: seq<Step>, k: nat, name: string) returns (i: nat)
    requires IsRun(states, steps) && k < |steps| && steps[k].Advance?
    requires states[k].pcs[steps[k].t] == Read(name) && states[k + 1].pcs[steps[k].t] == KeyError(name)
    ensures i < k && Finds(states, steps, i, steps[k].t, name)
    ensures states[k].removed[name] > states[i + 1].removed[name] && states[k].calls[name] > 0
  {
    assert Enabled(states[k], steps[k]) && states[k + 1] == Next(states[k], steps[k]);
    i := ReaderHasFound(states, steps, k, steps[k].t, name);
    RemovedOnlyGrows(states, steps, i + 1, k, name);
    RunKeeps(states, steps, k, name);
  }

  /** A run extended by one step. */
  lemma Extended(states: seq<State>, steps: seq<Step>, step: Step, post: State)
    returns (states': seq<State>, steps': seq<Step>)
    requires IsRun(states, steps) && Enabled(states[|steps|], step) && post == Next(states[|steps|], step)
    ensures IsRun(states', steps') && states'[|steps'|] == post
  {
    states', steps' := states + [post], steps + [step];
  }

  /** A thread that has called `embed` can load the model and stand before its read, alone. */
  lemma LoadedRun(m: string) returns (states: seq<State>, steps: seq<Step>)
    ensures IsRun(states, steps)
    ensures states[|steps|] == State({m}, None, [Read(m), Idle], multiset{m}, multiset{}, multiset{})
  {
    var none := multiset{};
    states, steps := [State({}, None, [Idle, Idle], none, none, none)], [];
    states, steps := Extended(states, steps, Embed(0, m), State({}, None, [Check(m), Idle], none, none, none));
    states, steps := Extended(states, steps, Advance(0), State({}, None, [Want(m), Idle], none, none, none));
    states, steps := Extended(states, steps, Advance(0), State({}, Some(0), [Recheck(m), Idle], none, none, none));
    states, steps := Extended(states, steps, Advance(0), State({}, Some(0), [Construct(m), Idle], none, none, none));
    states, steps := Extended(states, steps, Advance(0), State({}, Some(0), [Store(m), Idle], multiset{m}, none, none));
    states, steps := Extended(states, steps, Advance(0),
                              State({m}, Some(0), [Release(m), Idle], multiset{m}, none, none));
    states, steps := Extended(states, steps, Advance(0), State({m}, None, [Read(m), Idle], multiset{m}, none, none));
  }

  /** And it does then happen: another thread removes the model before the first one reads. */
  lemma ReadCanMiss(m: string) returns (states: seq<State>, steps: seq<Step>)
    ensures IsRun(states, steps) && states[|steps|].pcs == [KeyError(m), UnregisterRelease(m)]
  {
    var one := multiset{m};
    states, steps := LoadedRun(m);
    states, steps := Extended(states, steps, Unregister(1, m),
                              State({m}, None, [Read(m), UnregisterWant(m)], one, multiset{}, one));
    states, steps := Extended(states, steps, Advance(1), State({m}, Some(1), [Read(m), Pop(m)], one, multiset{}, one));
    states, steps := Extended(states, steps, Advance(1),
                              State({}, Some(1), [Read(m), UnregisterRelease(m)], one, one, one));
    states, steps := Extended(states, steps, Advance(0),
                              State({}, Some(1), [KeyError(m), UnregisterRelease(m)], one, one, one));
  }
}
