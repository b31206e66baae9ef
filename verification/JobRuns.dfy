/** Safety over whole runs of the job runtime. */
module JobRuns {
  import opened Wrappers
  import opened JobStateMachine
  import opened JobTables
  import opened Numbering
  import opened JobService
  import opened JobSyncService
  import opened JobSafety
  import opened JobCallSafety
  import opened JobSyncSafety

  /** One call, with everything the environment decides: Ray's answers, the clock, the row order. */
  datatype Action =
    | Submit(ctx: Context, req: Request, launch: Launch, now: Time)
    | Cancel(ctx: Context, job: nat, stopsEarly: bool, now: Time)
    | Retry(ctx: Context, job: nat, launch: Launch, now: Time)
    | SyncAll(order: seq<nat>, answers: nat -> Answer, now: Time)
    | CheckTimeouts(order: seq<nat>, now: Time)
    | Recover(order: seq<nat>, answers: nat -> Answer, now: Time)

  ghost predicate Enabled(db: Db, action: Action) {
    match action
    case SyncAll(order, _, _) => Enumerates(order, LiveIds(db))
    case CheckTimeouts(order, _) => Enumerates(order, TimeoutIds(db))
    case Recover(order, _, _) => Enumerates(order, RecoverIds(db))
    case _ => true
  }

  /** The tables after a call; a refused call changes nothing. */
  ghost function After(db: Db, action: Action): Db
    requires Linked(db) && Enabled(db, action)
  {
    match action
    case Submit(ctx, req, launch, now) =>
      if Existing(db, ctx, req).Some? || SubmitRefusal(db, ctx, req).Some? then db
      else Submitted(db, ctx, req, launch, now)
    case Cancel(ctx, j, stopsEarly, now) =>
      if CancelRefusal(db, ctx, j).Some? then db else Cancelled(db, j, stopsEarly, now)
    case Retry(ctx, j, launch, now) =>
      if RetryRefusal(db, ctx, j).Some? then db else Retried(db, j, launch, now)
    case SyncAll(order, answers, now) =>
      assert forall a | a in order :: a in LiveIds(db);
      SyncRows(db, Fetch(db, order), answers, now)
    case CheckTimeouts(order, now) =>
      TimeoutRows(db, FetchTimed(db, order), now)
    case Recover(order, answers, now) =>
      assert forall j | j in order :: j in RecoverIds(db);
      RecoverJobs(db, FetchJobs(db, order), answers, now)
  }

  ghost predicate Step(db: Db, action: Action, post: Db) {
    Linked(db) && Enabled(db, action) && post == After(db, action)
  }

  /** A run starts from empty tables. */
  ghost predicate IsRun(states: seq<Db>, actions: seq<Action>) {
    && |states| == |actions| + 1
    && states[0] == Db([], [], [])
    && forall i | 0 <= i < |actions| :: Step(states[i], actions[i], states[i + 1])
  }

  lemma StepKeeps(db: Db, action: Action, post: Db)
    requires Inv(db) && Step(db, action, post)
    ensures Inv(post) && Evolves(db, post) && db.events <= post.events
  {
    EvolvesItself(db);
    hide Evolves, Submitted, Retried, Cancelled, SyncRows, TimeoutRows, RecoverJobs, Enumerates;
    match action {
      case Submit(ctx, req, launch, now) =>
        if SubmitRefusal(db, ctx, req).None? { SubmitKeeps(db, ctx, req, launch, now); }
      case Cancel(ctx, j, stopsEarly, now) =>
        if CancelRefusal(db, ctx, j).None? {
          CancelKeeps(db, j, stopsEarly, now);
          NumbersKept(db, Cancelled(db, j, stopsEarly, now));
        }
      case Retry(ctx, j, launch, now) =>
        if RetryRefusal(db, ctx, j).None? { RetryKeeps(db, j, launch, now); }
      case SyncAll(order, answers, now) => SyncAllKeeps(db, order, answers, now);
      case CheckTimeouts(order, now) => CheckTimeoutsKeeps(db, order, now);
      case Recover(order, answers, now) => RecoverKeeps(db, order, answers, now);
    }
  }

  /** What an earlier state settled stays settled in a later one. */
  ghost predicate Follows(was: Db, post: Db) {
    Inv(was) && Inv(post) && Evolves(was, post) && was.events <= post.events
  }

  lemma FollowsItself(db: Db)
    requires Inv(db)
    ensures Follows(db, db)
  {
  }

  lemma FollowsStep(first: Db, was: Db, action: Action, post: Db)
    requires Follows(first, was) && Step(was, action, post)
    ensures Follows(first, post) && Follows(was, post)
  {
    StepKeeps(was, action, post);
    EvolvesTransitive(first, was, post);
  }

  /** Every reachable state satisfies the invariant and follows every earlier one. */
  lemma {:induction false} RunIsSafe(states: seq<Db>, actions: seq<Action>, i: nat, k: nat)
    requires IsRun(states, actions) && i <= k < |states|
    ensures Follows(states[i], states[k])
    decreases k
  {
    if k == 0 {
      FollowsItself(states[0]);
    } else {
      hide Step, Follows;
      var before := if i < k then i else k - 1;
      RunIsSafe(states, actions, before, k - 1);
      FollowsStep(states[before], states[k - 1], actions[k - 1], states[k]);
      if i == k { FollowsTarget(states[before], states[k]); }
    }
  }

  lemma FollowsTarget(was: Db, post: Db)
    requires Follows(was, post)
    ensures Follows(post, post)
  {
  }

  // ---- the invariant and the history, spelled out ----

  /** A live attempt is the only live one and the highest-numbered one of its job, and its job is not terminal. */
  lemma OneLiveAttempt(states: seq<Db>, actions: seq<Action>, k: nat, a: nat)
    requires IsRun(states, actions) && k < |states|
    requires a < |states[k].attempts| && Live(states[k].attempts[a])
    ensures var db := states[k];
            && Linked(db) && !IsTerminal(db.jobs[db.attempts[a].jobId].status)
            && forall b: nat | b < |db.attempts| && b != a && db.attempts[b].jobId == db.attempts[a].jobId ::
                 !Live(db.attempts[b]) && db.attempts[b].number < db.attempts[a].number
  {
    RunIsSafe(states, actions, k, k);
  }

  lemma NumbersAreExact(states: seq<Db>, actions: seq<Action>, k: nat, j: nat, number: nat)
    requires IsRun(states, actions) && k < |states|
    ensures var keys := AttemptKeys(states[k].attempts);
            Key(j, number) in keys <==> 1 <= number <= Count(keys, j)
    ensures var keys := EventKeys(states[k].events);
            Key(j, number) in keys <==> 1 <= number <= Count(keys, j)
    ensures forall a, b | 0 <= a < b < |states[k].attempts|
                          && states[k].attempts[a].jobId == states[k].attempts[b].jobId ::
              states[k].attempts[a].number < states[k].attempts[b].number
    ensures forall a, b | 0 <= a < b < |states[k].events| && states[k].events[a].jobId == states[k].events[b].jobId ::
              states[k].events[a].seqNo < states[k].events[b].seqNo
  {
    RunIsSafe(states, actions, k, k);
    var db := states[k];
    ExactlyOneToN(AttemptKeys(db.attempts), j, number);
    ExactlyOneToN(EventKeys(db.events), j, number);
    forall a, b | 0 <= a < b < |db.attempts| && db.attempts[a].jobId == db.attempts[b].jobId
      ensures db.attempts[a].number < db.attempts[b].number
    {
      Increasing(AttemptKeys(db.attempts), a, b);
    }
    forall a, b | 0 <= a < b < |db.events| && db.events[a].jobId == db.events[b].jobId
      ensures db.events[a].seqNo < db.events[b].seqNo
    {
      Increasing(EventKeys(db.events), a, b);
    }
  }

  /** SUCCEEDED and CANCELLED jobs and closed attempts are frozen; `started_at` is written once. */
  lemma SettledForever(states: seq<Db>, actions: seq<Action>, i: nat, k: nat, j: nat, a: nat)
    requires IsRun(states, actions) && i <= k < |states|
    requires j < |states[i].jobs| && a < |states[i].attempts|
    ensures |states[i].jobs| <= |states[k].jobs| && |states[i].attempts| <= |states[k].attempts|
    ensures states[i].jobs[j].status in {SUCCEEDED, CANCELLED} ==> states[k].jobs[j] == states[i].jobs[j]
    ensures IsTerminal(states[i].attempts[a].status) ==> states[k].attempts[a] == states[i].attempts[a]
    ensures states[i].attempts[a].startedAt.Some? ==>
              states[k].attempts[a].startedAt == states[i].attempts[a].startedAt
    ensures states[i].attempts[a].status == RUNNING ==> states[i].attempts[a].startedAt.Some?
    ensures states[i].jobs[j].finishedAt.Some? <==> IsTerminal(states[i].jobs[j].status)
    ensures states[i].attempts[a].finishedAt.Some? <==> IsTerminal(states[i].attempts[a].status)
  {
    RunIsSafe(states, actions, i, k);
    assert JobEvolves(states[i].jobs[j], states[k].jobs[j]);
    assert AttemptEvolves(states[i].attempts[a], states[k].attempts[a]);
    assert JobOk(states[i].jobs[j]) && AttemptOk(states[i].attempts[a]);
  }
}
