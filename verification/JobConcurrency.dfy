/** The per-tenant limit on RUNNING jobs: which runs keep it, and how a retry gets past it. */
module JobConcurrency {
  import opened Wrappers
  import opened JobStateMachine
  import opened JobTables
  import opened JobService
  import opened JobSyncService
  import opened JobSafety
  import opened JobSyncSafety
  import opened JobRuns

  /** A job that waits in the queue has no attempt that Ray knows about. */
  ghost predicate QueuedIsUnstarted(db: Db) {
    forall a | 0 <= a < |db.attempts| && db.attempts[a].ray.Some? && db.attempts[a].jobId < |db.jobs| ::
      db.jobs[db.attempts[a].jobId].status != QUEUED
  }

  ghost predicate WithinLimit(db: Db) {
    forall tenant :: CountRunning(db.jobs, tenant) <= MAX_CONCURRENT
  }

  /** No retry, and Ray does not put a started attempt back into its own queue. */
  ghost predicate Calm(db: Db, action: Action) {
    && !action.Retry?
    && (action.SyncAll? ==>
          forall a | a in LiveIds(db) && action.answers(a).Reports? ::
            action.answers(a).status !in {RayPending, RayQueued})
  }

  // ---- counting ----

  /** The same jobs, and none of them started running. */
  ghost predicate NoneStarted(was: Db, post: Db) {
    && |post.jobs| == |was.jobs|
    && forall j | 0 <= j < |was.jobs| ::
         post.jobs[j].tenant == was.jobs[j].tenant && (post.jobs[j].status == RUNNING ==> was.jobs[j].status == RUNNING)
  }

  lemma {:induction false} FewerRunning(was: seq<Job>, post: seq<Job>, tenant: string)
    requires |was| == |post|
    requires forall j | 0 <= j < |was| ::
               post[j].tenant == was[j].tenant && (post[j].status == RUNNING ==> was[j].status == RUNNING)
    ensures CountRunning(post, tenant) <= CountRunning(was, tenant)
  {
    if was != [] { FewerRunning(was[..|was| - 1], post[..|post| - 1], tenant); }
  }

  lemma {:induction false} OneMoreRunning(was: seq<Job>, post: seq<Job>, j: nat, tenant: string)
    requires j < |was| == |post| && post == was[j := post[j]]
    requires post[j].tenant == was[j].tenant && was[j].status != RUNNING
    ensures CountRunning(post, tenant) ==
            CountRunning(was, tenant) + if was[j].tenant == tenant && post[j].status == RUNNING then 1 else 0
  {
    var n := |was| - 1;
    if j < n {
      assert post[..n] == was[..n][j := post[j]];
      OneMoreRunning(was[..n], post[..n], j, tenant);
    } else {
      assert post[..n] == was[..n];
    }
  }

  lemma AppendedRunning(jobs: seq<Job>, job: Job, tenant: string)
    ensures CountRunning(jobs + [job], tenant) ==
            CountRunning(jobs, tenant) + if job.tenant == tenant && job.status == RUNNING then 1 else 0
  {
    assert (jobs + [job])[..|jobs|] == jobs;
  }

  // ---- each call ----

  /** The step neither starts a job nor queues one that Ray knows about. */
  ghost predicate Eases(was: Db, post: Db) {
    NoneStarted(was, post) && SameAttempts(was, post) && QueuedIsUnstarted(post)
  }

  ghost predicate SameRays(was: Db, post: Db) {
    SameAttempts(was, post) && forall a | 0 <= a < |was.attempts| :: post.attempts[a].ray == was.attempts[a].ray
  }

  /** One job at most changes, and neither starts nor goes back to the queue. */
  lemma JobAloneEases(db: Db, post: Db, j: nat)
    requires QueuedIsUnstarted(db) && SameRays(db, post) && |post.jobs| == |db.jobs|
    requires forall k | 0 <= k < |db.jobs| && k != j :: post.jobs[k] == db.jobs[k]
    requires j < |db.jobs| ==>
               && post.jobs[j].tenant == db.jobs[j].tenant
               && (Open(post.jobs[j].status) ==> post.jobs[j].status == db.jobs[j].status)
    ensures Eases(db, post)
  {
  }

  lemma RunningEases(db: Db, row: Row, hasResult: bool, now: Time)
    requires QueuedIsUnstarted(db)
    requires row.attemptId < |db.attempts| && db.attempts[row.attemptId] == row.attempt && row.attempt.ray.Some?
    requires row.attempt.jobId < |db.jobs| && db.jobs[row.attempt.jobId].status != SUBMITTED
    ensures Eases(db, SyncReported(db, row, RUNNING, hasResult, now))
  {
    var post := SyncReported(db, row, RUNNING, hasResult, now);
    assert post.jobs == db.jobs;
    JobAloneEases(db, post, row.attempt.jobId);
  }

  lemma FinishEases(db: Db, row: Row, to: Status, hasResult: bool, now: Time)
    requires QueuedIsUnstarted(db) && to in {SUCCEEDED, FAILED, CANCELLED}
    ensures Eases(db, SyncReported(db, row, to, hasResult, now))
  {
    var a, j, post := row.attemptId, row.attempt.jobId, SyncReported(db, row, to, hasResult, now);
    var written := if to != row.attempt.status then UpdateAttemptStatus(db, a, to, now) else db;
    assert SameRays(db, written) && written.jobs == db.jobs;
    assert post == written || (post.attempts == written.attempts && post.jobs == CloseOpenJob(db, j, to, now).jobs);
    JobAloneEases(db, post, j);
  }

  lemma SyncRowEases(db: Db, row: Row, answer: Answer, now: Time)
    requires QueuedIsUnstarted(db)
    requires row.attemptId < |db.attempts| && db.attempts[row.attemptId] == row.attempt && row.attempt.ray.Some?
    requires answer.Reports? ==> answer.status !in {RayPending, RayQueued}
    requires row.attempt.jobId < |db.jobs| && db.jobs[row.attempt.jobId].status != SUBMITTED
    ensures Eases(db, SyncRow(db, row, answer, now))
  {
    var a, j := row.attemptId, row.attempt.jobId;
    if answer.Unreachable? {
      JobAloneEases(db, MarkLost(db, a, j, now), j);
    } else if MapRay(answer.status).Some? {
      var to := MapRay(answer.status).value;
      if to == RUNNING {
        RunningEases(db, row, answer.hasResult, now);
      } else {
        FinishEases(db, row, to, answer.hasResult, now);
      }
    }
  }

  /** The fetched row of attempt `a` is still what the tables hold. */
  ghost predicate Current(db: Db, before: Db, a: nat) {
    && a < |db.attempts| && a < |before.attempts| && before.attempts[a] == db.attempts[a]
    && Live(db.attempts[a])
    && var j := db.attempts[a].jobId;
       j < |db.jobs| && j < |before.jobs| && before.jobs[j] == db.jobs[j] && db.jobs[j].status != SUBMITTED
  }

  lemma FetchedIsCurrent(db: Db, order: seq<nat>, n: nat, answers: nat -> Answer, now: Time)
    requires Safe(db) && LiveOrder(db, order) && Fetchable(db, order) && n < |order|
    ensures Current(db, SyncedTo(db, order, n, answers, now), order[n])
  {
    SyncRowsKeep(db, order, n, answers, now);
    NextJobNotDone(db, order, n, n);
    assert JobOk(db.jobs[db.attempts[order[n]].jobId]);
  }

  lemma SyncStepEases(db: Db, before: Db, a: nat, answer: Answer, now: Time)
    requires Current(db, before, a) && Eases(db, before)
    requires answer.Reports? ==> answer.status !in {RayPending, RayQueued}
    ensures Eases(db, SyncRow(before, RowOf(db, a), answer, now))
  {
    SyncRowEases(before, RowOf(db, a), answer, now);
  }

  lemma {:induction false} SyncRowsEase(db: Db, order: seq<nat>, n: nat, answers: nat -> Answer, now: Time)
    requires Safe(db) && QueuedIsUnstarted(db) && LiveOrder(db, order) && Fetchable(db, order) && n <= |order|
    requires forall a | a in order && answers(a).Reports? :: answers(a).status !in {RayPending, RayQueued}
    ensures Eases(db, SyncedTo(db, order, n, answers, now))
  {
    if n > 0 {
      SyncedToNext(db, order, n - 1, answers, now);
      hide Eases, Current, Safe, LiveOrder, Fetchable, SyncedTo, SyncRow, RowOf, QueuedIsUnstarted;
      SyncRowsEase(db, order, n - 1, answers, now);
      FetchedIsCurrent(db, order, n - 1, answers, now);
      SyncStepEases(db, SyncedTo(db, order, n - 1, answers, now), order[n - 1], answers(order[n - 1]), now);
    }
  }

  lemma SyncAllEases(db: Db, order: seq<nat>, answers: nat -> Answer, now: Time)
    requires Safe(db) && QueuedIsUnstarted(db) && Enumerates(order, LiveIds(db))
    requires forall a | a in LiveIds(db) && answers(a).Reports? :: answers(a).status !in {RayPending, RayQueued}
    ensures forall a | a in order :: a < |db.attempts| && db.attempts[a].jobId < |db.jobs|
    ensures Eases(db, SyncRows(db, Fetch(db, order), answers, now))
  {
    FetchedAreLive(db, order);
    SyncedToAll(db, order, answers, now);
    SyncRowsEase(db, order, |order|, answers, now);
  }

  lemma TimeoutRowEases(db: Db, row: TimedRow, now: Time)
    requires QueuedIsUnstarted(db)
    ensures Eases(db, TimeoutRow(db, row, now))
  {
  }

  lemma {:induction false} TimeoutRowsEase(db: Db, rows: seq<TimedRow>, now: Time)
    requires QueuedIsUnstarted(db)
    ensures Eases(db, TimeoutRows(db, rows, now))
  {
    if rows != [] {
      TimeoutRowsEase(db, rows[..|rows| - 1], now);
      TimeoutRowEases(TimeoutRows(db, rows[..|rows| - 1], now), rows[|rows| - 1], now);
    }
  }

  lemma RecoverJobEases(db: Db, j: nat, answers: nat -> Answer, now: Time)
    requires QueuedIsUnstarted(db) && j in RecoverIds(db)
    ensures Eases(db, RecoverJob(db, j, db.jobs[j].status, answers, now))
  {
    var found := LatestOpen(db.attempts, j);
    if found.Some? && db.attempts[found.value].ray.Some? {
      JobAloneEases(db, RecoverAttempt(db, j, db.jobs[j].status, found.value, answers(found.value), now), j);
    } else {
      JobAloneEases(db, CloseJob(db, j, LOST, now), j);
    }
  }

  lemma RecoverJobsUnfold(db: Db, rows: seq<(nat, Status)>, n: nat, answers: nat -> Answer, now: Time)
    requires 0 < n <= |rows|
    ensures RecoverJobs(db, rows[..n], answers, now)
         == RecoverJob(RecoverJobs(db, rows[..n - 1], answers, now), rows[n - 1].0, rows[n - 1].1, answers, now)
  {
    hide RecoverJob;
    assert rows[..n][..n - 1] == rows[..n - 1];
  }

  /** The n-th job fetched is as it was when its turn comes. */
  lemma StillToRecover(db: Db, order: seq<nat>, n: nat, answers: nat -> Answer, now: Time)
    requires Safe(db) && Enumerates(order, RecoverIds(db)) && 0 < n <= |order|
    ensures forall j | j in order :: j < |db.jobs|
    ensures var j, before := order[n - 1], RecoverJobs(db, FetchJobs(db, order)[..n - 1], answers, now);
            j in RecoverIds(before) && j < |before.jobs| && j < |db.jobs| && before.jobs[j] == db.jobs[j]
  {
    RecoverJobsKeep(db, order, n - 1, answers, now);
    NotDoneYet(order, RecoverIds(db), n);
    hide RecoverJobs, RecoverJob, Safe, Evolves, Logged, RecoverIds, Enumerates;
    StillOpen(db, RecoverJobs(db, FetchJobs(db, order)[..n - 1], answers, now), Done(order, n - 1), order[n - 1]);
  }

  lemma RecoverStepEases(db: Db, before: Db, j: nat, answers: nat -> Answer, now: Time)
    requires Eases(db, before) && j in RecoverIds(before)
    ensures Eases(db, RecoverJob(before, j, before.jobs[j].status, answers, now))
  {
    RecoverJobEases(before, j, answers, now);
  }

  lemma {:induction false} RecoverJobsEase(db: Db, order: seq<nat>, n: nat, answers: nat -> Answer, now: Time)
    requires Safe(db) && QueuedIsUnstarted(db) && Enumerates(order, RecoverIds(db)) && n <= |order|
    ensures forall j | j in order :: j < |db.jobs|
    ensures Eases(db, RecoverJobs(db, FetchJobs(db, order)[..n], answers, now))
  {
    assert forall j | j in order :: j in RecoverIds(db);
    if n > 0 {
      hide Eases, RecoverJob, RecoverJobs, Safe, QueuedIsUnstarted;
      StillToRecover(db, order, n, answers, now);
      RecoverJobsUnfold(db, FetchJobs(db, order), n, answers, now);
      RecoverJobsEase(db, order, n - 1, answers, now);
      RecoverStepEases(db, RecoverJobs(db, FetchJobs(db, order)[..n - 1], answers, now), order[n - 1], answers, now);
    }
  }

  lemma SubmitWithin(db: Db, ctx: Context, req: Request, launch: Launch, now: Time)
    requires Linked(db) && QueuedIsUnstarted(db) && WithinLimit(db) && SubmitRefusal(db, ctx, req).None?
    ensures var post := Submitted(db, ctx, req, launch, now); QueuedIsUnstarted(post) && WithinLimit(post)
  {
    var post := Submitted(db, ctx, req, launch, now);
    var job := post.jobs[|db.jobs|];
    assert post.jobs == db.jobs + [job];
    forall tenant ensures CountRunning(post.jobs, tenant) <= MAX_CONCURRENT {
      AppendedRunning(db.jobs, job, tenant);
    }
    assert forall a | 0 <= a < |db.attempts| :: post.attempts[a] == db.attempts[a];
  }

  lemma EasesWithin(db: Db, post: Db)
    requires WithinLimit(db) && Eases(db, post)
    ensures WithinLimit(post)
  {
    forall tenant ensures CountRunning(post.jobs, tenant) <= MAX_CONCURRENT {
      FewerRunning(db.jobs, post.jobs, tenant);
    }
  }

  lemma CancelEases(db: Db, action: Action, post: Db)
    requires QueuedIsUnstarted(db) && action.Cancel? && Step(db, action, post)
    ensures Eases(db, post)
  {
    JobAloneEases(db, post, action.job);
  }

  lemma CalmStepWithin(db: Db, action: Action, post: Db)
    requires Inv(db) && Step(db, action, post) && Calm(db, action)
    requires QueuedIsUnstarted(db) && WithinLimit(db)
    ensures QueuedIsUnstarted(post) && WithinLimit(post)
  {
    match action {
      case Submit(ctx, req, launch, now) =>
        if SubmitRefusal(db, ctx, req).None? { SubmitWithin(db, ctx, req, launch, now); }
      case Cancel(_, _, _, _) =>
        CancelEases(db, action, post);
        EasesWithin(db, post);
      case Retry(_, _, _, _) =>
      case SyncAll(order, answers, now) =>
        SyncAllEases(db, order, answers, now);
        EasesWithin(db, post);
      case CheckTimeouts(order, now) =>
        TimeoutRowsEase(db, FetchTimed(db, order), now);
        EasesWithin(db, post);
      case Recover(order, answers, now) =>
        RecoverJobsEase(db, order, |order|, answers, now);
        assert FetchJobs(db, order)[..|order|] == FetchJobs(db, order);
        EasesWithin(db, post);
    }
  }

  // ---- main results ----

  /** In a calm run no tenant ever has more than 30 RUNNING jobs. */
  lemma {:induction false} CalmRunWithinLimit(states: seq<Db>, actions: seq<Action>, k: nat)
    requires IsRun(states, actions) && k < |states|
    requires forall i | 0 <= i < |actions| :: Calm(states[i], actions[i])
    ensures QueuedIsUnstarted(states[k]) && WithinLimit(states[k])
  {
    if k > 0 {
      CalmRunWithinLimit(states, actions, k - 1);
      RunIsSafe(states, actions, k - 1, k - 1);
      assert Follows(states[k - 1], states[k - 1]);
      assert Step(states[k - 1], actions[k - 1], states[k]);
      CalmStepWithin(states[k - 1], actions[k - 1], states[k]);
    }
  }

  /** An accepted retry exceeds the limit exactly when it is launched for a tenant that is at the limit. */
  lemma RetryLimit(db: Db, ctx: Context, j: nat, launch: Launch, now: Time)
    requires Linked(db) && WithinLimit(db) && RetryRefusal(db, ctx, j).None?
    ensures WithinLimit(Retried(db, j, launch, now)) <==>
            !(launch.Started? && CountRunning(db.jobs, db.jobs[j].tenant) == MAX_CONCURRENT)
  {
    var post := Retried(db, j, launch, now);
    assert post.jobs == db.jobs[j := post.jobs[j]];
    forall tenant
      ensures CountRunning(post.jobs, tenant) ==
              CountRunning(db.jobs, tenant) + if db.jobs[j].tenant == tenant && launch.Started? then 1 else 0
    {
      OneMoreRunning(db.jobs, post.jobs, j, tenant);
    }
  }

  const OWNER := Context("acme", false)
  const PLAIN := Request(None, true, 3600)

  /** Every job has failed or runs with an attempt that Ray knows about. */
  ghost predicate AllStarted(db: Db) {
    forall j: nat | j < |db.jobs| ::
      db.jobs[j].status == FAILED || (db.jobs[j].status == RUNNING && HasLive(db, j))
  }

  /** A submission adds one attempt; it is live when the backend took it. */
  lemma OneMoreAttempt(db: Db, launch: Launch, post: Db)
    requires launch != NoBackend && post == Submitted(db, OWNER, PLAIN, launch, 0)
    ensures |post.attempts| == |db.attempts| + 1 && post.attempts[..|db.attempts|] == db.attempts
    ensures launch.Started? ==> HasLive(post, |db.jobs|)
  {
    var attempt := post.attempts[|db.attempts|];
    assert post.attempts == db.attempts + [attempt];
    assert launch.Started? ==> Live(attempt) && attempt.jobId == |db.jobs|;
  }

  lemma LiveStays(db: Db, post: Db, j: nat)
    requires HasLive(db, j) && |db.attempts| <= |post.attempts| && post.attempts[..|db.attempts|] == db.attempts
    ensures HasLive(post, j)
  {
    var a :| 0 <= a < |db.attempts| && Live(db.attempts[a]) && db.attempts[a].jobId == j;
    assert post.attempts[a] == post.attempts[..|db.attempts|][a];
  }

  lemma OneMoreStarted(db: Db, launch: Launch, post: Db)
    requires Inv(db) && AllStarted(db) && CountRunning(db.jobs, "acme") < MAX_CONCURRENT
    requires launch != NoBackend && post == Submitted(db, OWNER, PLAIN, launch, 0)
    ensures AllStarted(post)
  {
    OneMoreJob(db, launch, post);
    OneMoreAttempt(db, launch, post);
    hide Submitted, Inv;
    forall j: nat | j < |post.jobs|
      ensures post.jobs[j].status == FAILED || (post.jobs[j].status == RUNNING && HasLive(post, j))
    {
      if j < |db.jobs| {
        assert post.jobs[j] == post.jobs[..|db.jobs|][j];
        if db.jobs[j].status == RUNNING { LiveStays(db, post, j); }
      }
    }
  }

  /** What one more submission does to the job table. */
  lemma OneMoreRow(db: Db, launch: Launch, post: Db)
    requires launch != NoBackend && post == Submitted(db, OWNER, PLAIN, launch, 0)
    ensures post.jobs[..|db.jobs|] == db.jobs
    ensures |post.jobs| == |db.jobs| + 1
    ensures post.jobs[|db.jobs|].tenant == "acme"
    ensures post.jobs[|db.jobs|].status == if launch.Started? then RUNNING else FAILED
  {
    hide EventKeys;
  }

  lemma OneMoreJob(db: Db, launch: Launch, post: Db)
    requires Inv(db) && CountRunning(db.jobs, "acme") < MAX_CONCURRENT
    requires launch != NoBackend && post == Submitted(db, OWNER, PLAIN, launch, 0)
    ensures Step(db, Submit(OWNER, PLAIN, launch, 0), post)
    ensures post.jobs[..|db.jobs|] == db.jobs
    ensures |post.jobs| == |db.jobs| + 1
    ensures post.jobs[|db.jobs|].tenant == "acme"
    ensures post.jobs[|db.jobs|].status == if launch.Started? then RUNNING else FAILED
    ensures CountRunning(post.jobs, "acme") == CountRunning(db.jobs, "acme") + if launch.Started? then 1 else 0
  {
    OneMoreRow(db, launch, post);
    hide Submitted;
  }

  lemma ExtendRun(states: seq<Db>, actions: seq<Action>, action: Action, post: Db)
    requires IsRun(states, actions) && Step(states[|states| - 1], action, post)
    ensures IsRun(states + [post], actions + [action])
  {
  }

  lemma LastIsSafe(states: seq<Db>, actions: seq<Action>)
    requires IsRun(states, actions)
    ensures Inv(states[|states| - 1])
  {
    RunIsSafe(states, actions, |states| - 1, |states| - 1);
  }

  lemma NothingStarted()
    ensures AllStarted(Db([], [], []))
  {
  }

  /** One refused submission, then `n` that start. */
  lemma {:induction false} BusyTenant(n: nat) returns (states: seq<Db>, actions: seq<Action>)
    requires n <= MAX_CONCURRENT
    ensures IsRun(states, actions)
    ensures var db := states[|states| - 1];
            db.jobs != [] && db.jobs[0].tenant == "acme" && db.jobs[0].status == FAILED
            && CountRunning(db.jobs, "acme") == n && AllStarted(db)
    ensures forall i | 0 <= i < |actions| :: actions[i].Submit?
  {
    hide Step, Inv, AllStarted;
    var launch := if n == 0 then Refused else Started(n);
    if n == 0 {
      states, actions := [Db([], [], [])], [];
      NothingStarted();
    } else {
      states, actions := BusyTenant(n - 1);
    }
    var db := states[|states| - 1];
    LastIsSafe(states, actions);
    var post := Submitted(db, OWNER, PLAIN, launch, 0);
    OneMoreJob(db, launch, post);
    OneMoreStarted(db, launch, post);
    ExtendRun(states, actions, Submit(OWNER, PLAIN, launch, 0), post);
    assert n > 0 ==> post.jobs[0] == post.jobs[..|db.jobs|][0];
    states, actions := states + [post], actions + [Submit(OWNER, PLAIN, launch, 0)];
  }

  /** A run of submissions and one retry after which a tenant has 31 RUNNING jobs. */
  lemma RetryExceedsLimit() returns (states: seq<Db>, actions: seq<Action>)
    ensures IsRun(states, actions)
    ensures forall i | 0 <= i < |actions| - 1 :: actions[i].Submit?
    ensures actions != [] && actions[|actions| - 1].Retry?
    ensures CountRunning(states[|states| - 1].jobs, "acme") == 31
  {
    states, actions := BusyTenant(MAX_CONCURRENT);
    var db := states[|states| - 1];
    LastIsSafe(states, actions);
    var post := Retried(db, 0, Started(0), 0);
    LaunchedRetry(db, 0, post);
    ExtendRun(states, actions, Retry(OWNER, 0, Started(0), 0), post);
    states, actions := states + [post], actions + [Retry(OWNER, 0, Started(0), 0)];
  }

  lemma LaunchedRetry(db: Db, j: nat, post: Db)
    requires Inv(db) && j < |db.jobs| && db.jobs[j].tenant == "acme" && db.jobs[j].status == FAILED
    requires post == Retried(db, j, Started(0), 0)
    ensures Step(db, Retry(OWNER, j, Started(0), 0), post)
    ensures CountRunning(post.jobs, "acme") == CountRunning(db.jobs, "acme") + 1
  {
    assert post.jobs == db.jobs[j := post.jobs[j]];
    OneMoreRunning(db.jobs, post.jobs, j, "acme");
  }
}
