/** Jobs that a STOPPED answer leaves open without a live attempt, and what becomes of them. */
module JobStranded {
  import opened Wrappers
  import opened JobStateMachine
  import opened JobTables
  import opened JobService
  import opened JobSyncService
  import opened JobSafety
  import opened JobCallSafety
  import opened JobSyncSafety
  import opened JobRecovery
  import opened JobRuns
  import opened JobConcurrency
  import opened JobVerdicts

  /** The job and its attempts are as they were, apart from rows of other jobs. */
  ghost predicate Same(db: Db, post: Db, j: nat) {
    && j < |db.jobs| && j < |post.jobs| && post.jobs[j] == db.jobs[j]
    && |db.attempts| <= |post.attempts|
    && (forall a | 0 <= a < |db.attempts| && db.attempts[a].jobId == j :: post.attempts[a] == db.attempts[a])
    && (forall a | 0 <= a < |post.attempts| && post.attempts[a].jobId == j ::
          a < |db.attempts| && db.attempts[a].jobId == j)
  }

  lemma SameStranded(db: Db, post: Db, j: nat)
    requires Same(db, post, j) && Stranded(db, j)
    ensures Stranded(post, j)
  {
  }

  lemma OtherJobSame(db: Db, post: Db, j: nat, other: nat)
    requires OnlyJob(db, post, other) && j < |db.jobs| && j != other
    ensures Same(db, post, j)
  {
  }

  lemma OtherJobsSame(db: Db, post: Db, j: nat, jobs: set<nat>)
    requires OnlyJobs(db, post, jobs) && j < |db.jobs| && j !in jobs
    ensures Same(db, post, j)
  {
  }

  lemma SameTwice(db: Db, mid: Db, post: Db, j: nat)
    requires Same(db, mid, j) && Same(mid, post, j)
    ensures Same(db, post, j)
  {
  }

  lemma SubmitLeaves(db: Db, ctx: Context, req: Request, launch: Launch, now: Time, j: nat)
    requires Inv(db) && SubmitRefusal(db, ctx, req).None? && j < |db.jobs|
    ensures Same(db, Submitted(db, ctx, req, launch, now), j)
  {
    NewJobRows(db, ctx, req);
    NewJobKeeps(db, ctx, req);
    var made := NewJob(db, ctx, req);
    assert Same(db, made, j);
    SubmitLaunchKeeps(made, |db.attempts|, |db.jobs|, launch, now);
    OtherJobSame(made, Submitted(db, ctx, req, launch, now), j, |db.jobs|);
    SameTwice(db, made, Submitted(db, ctx, req, launch, now), j);
  }

  lemma RetryLeaves(db: Db, ctx: Context, k: nat, launch: Launch, now: Time, j: nat)
    requires Inv(db) && RetryRefusal(db, ctx, k).None? && j < |db.jobs| && j != k
    ensures Same(db, Retried(db, k, launch, now), j)
  {
    RequeueKeeps(db, k);
    var queued := Requeued(db, k);
    assert Same(db, queued, j);
    RetryLaunchKeeps(queued, |db.attempts|, k, launch, now);
    OtherJobSame(queued, Retried(db, k, launch, now), j, k);
    SameTwice(db, queued, Retried(db, k, launch, now), j);
  }

  lemma NotDone(db: Db, order: seq<nat>, j: nat)
    requires LiveOrder(db, order) && j < |db.jobs| && !HasLive(db, j)
    ensures j !in DoneJobs(db, order, |order|)
  {
    if j in DoneJobs(db, order, |order|) { DoneHasLive(db, order, |order|, j); }
  }

  lemma SyncLeaves(db: Db, order: seq<nat>, answers: nat -> Answer, now: Time, j: nat)
    requires Safe(db) && Enumerates(order, LiveIds(db)) && j < |db.jobs| && !HasLive(db, j)
    ensures Same(db, SyncedAll(db, order, answers, now), j)
  {
    FetchedAreLive(db, order);
    NotDone(db, order, j);
    SyncRowsKeep(db, order, |order|, answers, now);
    SyncedToAll(db, order, answers, now);
    OtherJobsSame(db, SyncedAll(db, order, answers, now), j, DoneJobs(db, order, |order|));
  }

  lemma TimeoutsLeave(db: Db, order: seq<nat>, now: Time, j: nat)
    requires Safe(db) && Enumerates(order, TimeoutIds(db)) && j < |db.jobs| && !HasLive(db, j)
    ensures Same(db, TimeoutRows(db, FetchTimed(db, order), now), j)
  {
    TimedAreLive(db, order);
    NotDone(db, order, j);
    TimeoutRowsKeep(db, order, |order|, now);
    var rows := FetchTimed(db, order);
    assert rows[..|order|] == rows;
    OtherJobsSame(db, TimeoutRows(db, rows, now), j, DoneJobs(db, order, |order|));
  }

  /** No call but a cancel of the job itself and a recovery touches a stranded job. */
  lemma StrandedStays(states: seq<Db>, actions: seq<Action>, k: nat, j: nat)
    requires IsRun(states, actions) && k < |actions| && j < |states[k].jobs| && Stranded(states[k], j)
    requires !actions[k].Recover? && !(actions[k].Cancel? && actions[k].job == j)
    ensures j < |states[k + 1].jobs| && states[k + 1].jobs[j] == states[k].jobs[j] && Stranded(states[k + 1], j)
  {
    RunIsSafe(states, actions, k, k);
    var db, action, post := states[k], actions[k], states[k + 1];
    assert Inv(db) && Step(db, action, post);
    assert !HasLive(db, j);
    CallLeaves(db, action, post, j);
    SameStranded(db, post, j);
  }

  lemma CallLeaves(db: Db, action: Action, post: Db, j: nat)
    requires Inv(db) && Step(db, action, post) && j < |db.jobs| && !HasLive(db, j) && Open(db.jobs[j].status)
    requires !action.Recover? && !(action.Cancel? && action.job == j)
    ensures Same(db, post, j)
  {
    match action {
      case Submit(ctx, req, launch, now) =>
        if SubmitRefusal(db, ctx, req).None? { SubmitLeaves(db, ctx, req, launch, now, j); }
      case Cancel(ctx, other, stopsEarly, now) =>
        if CancelRefusal(db, ctx, other).None? {
          CancelKeeps(db, other, stopsEarly, now);
          OtherJobSame(db, post, j, other);
        }
      case Retry(ctx, other, launch, now) =>
        if RetryRefusal(db, ctx, other).None? { RetryLeaves(db, ctx, other, launch, now, j); }
      case SyncAll(order, answers, now) => SyncLeaves(db, order, answers, now, j);
      case CheckTimeouts(order, now) => TimeoutsLeave(db, order, now, j);
      case Recover(_, _, _) =>
    }
    hide Submitted, Cancelled, Retried, SyncRows, TimeoutRows, Safe;
  }

  /** Either of those closes it. */
  lemma StrandedIsClosed(states: seq<Db>, actions: seq<Action>, k: nat, j: nat)
    requires IsRun(states, actions) && k < |actions| && j < |states[k].jobs| && Stranded(states[k], j)
    requires actions[k].Recover? || (actions[k].Cancel? && actions[k].job == j
                                     && AccessError(states[k], actions[k].ctx, j).None? && !actions[k].stopsEarly)
    ensures j < |states[k + 1].jobs| && IsTerminal(states[k + 1].jobs[j].status)
  {
    RunIsSafe(states, actions, k, k + 1);
    var db, action, post := states[k], actions[k], states[k + 1];
    assert Step(db, action, post);
    if action.Recover? {
      assert j in RecoverIds(db);
      OutcomeOfAll(db, action.order, action.answers, action.now);
      assert Outcome(db, post, j, action.answers);
      assert JobOk(post.jobs[j]);
    }
  }
}
