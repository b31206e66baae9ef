/** What submit, cancel and retry decide and write, stated without the functions that compute them. */
module JobCallOutcomes {
  import opened Wrappers
  import opened JobStateMachine
  import opened JobTables
  import opened Numbering
  import opened JobService
  import opened JobSafety
  import opened JobCallSafety
  import opened JobVerdicts
  import opened JobStranded
  import opened JobRuns

  // ---- when a call is refused ----

  lemma RunningSetGrows(jobs: seq<Job>, tenant: string, before: set<int>)
    requires jobs != [] && forall j :: j in before <==>
               0 <= j < |jobs| - 1 && jobs[j].tenant == tenant && jobs[j].status == RUNNING
    ensures |set j | 0 <= j < |jobs| && jobs[j].tenant == tenant && jobs[j].status == RUNNING|
         == |before| + if jobs[|jobs| - 1].tenant == tenant && jobs[|jobs| - 1].status == RUNNING then 1 else 0
  {
    var running := set j | 0 <= j < |jobs| && jobs[j].tenant == tenant && jobs[j].status == RUNNING;
    var n := |jobs| - 1;
    assert running == before + if jobs[n].tenant == tenant && jobs[n].status == RUNNING then {n} else {};
  }

  lemma {:induction false} CountRunningIs(jobs: seq<Job>, tenant: string)
    ensures CountRunning(jobs, tenant) ==
            |set j | 0 <= j < |jobs| && jobs[j].tenant == tenant && jobs[j].status == RUNNING|
  {
    if jobs != [] {
      var n := |jobs| - 1;
      CountRunningIs(jobs[..n], tenant);
      var before := set j | 0 <= j < |jobs[..n]| && jobs[..n][j].tenant == tenant && jobs[..n][j].status == RUNNING;
      RunningSetGrows(jobs, tenant, before);
    }
  }

  /** A submission is refused exactly for an unusable skill, 30 running jobs of the tenant, or a used key. */
  lemma SubmitDecision(db: Db, ctx: Context, req: Request)
    ensures SubmitRefusal(db, ctx, req).None? <==>
            && req.skillUsable
            && |set j | 0 <= j < |db.jobs| && db.jobs[j].tenant == ctx.tenant && db.jobs[j].status == RUNNING| < 30
            && (req.key.Some? ==> forall j | 0 <= j < |db.jobs| && db.jobs[j].tenant == ctx.tenant ::
                                    db.jobs[j].key != req.key)
  {
    CountRunningIs(db.jobs, ctx.tenant);
  }

  ghost predicate MayAct(db: Db, ctx: Context, j: nat) {
    j < |db.jobs| && (ctx.admin || db.jobs[j].tenant == ctx.tenant)
  }

  /** A cancel is accepted exactly from the job's tenant or an administrator, and while the job is not terminal. */
  lemma CancelDecision(db: Db, ctx: Context, j: nat)
    ensures CancelRefusal(db, ctx, j).None? <==>
            MayAct(db, ctx, j) && db.jobs[j].status in {SUBMITTED, QUEUED, RUNNING, CANCELLING}
    ensures j >= |db.jobs| ==> CancelRefusal(db, ctx, j) == Some(JobNotFound)
    ensures j < |db.jobs| && !MayAct(db, ctx, j) ==> CancelRefusal(db, ctx, j) == Some(PermissionDenied)
  {
  }

  /** A retry exactly from the same callers and for a job that failed, timed out or was lost. */
  lemma RetryDecision(db: Db, ctx: Context, j: nat)
    ensures RetryRefusal(db, ctx, j).None? <==> MayAct(db, ctx, j) && db.jobs[j].status in {FAILED, TIMED_OUT, LOST}
    ensures j >= |db.jobs| ==> RetryRefusal(db, ctx, j) == Some(JobNotFound)
    ensures j < |db.jobs| && !MayAct(db, ctx, j) ==> RetryRefusal(db, ctx, j) == Some(PermissionDenied)
  {
  }

  /** Terminal are exactly the statuses that lead nowhere. */
  lemma TerminalLeadsNowhere(s: Status)
    ensures IsTerminal(s) <==> forall to :: !CanTransition(s, to)
    ensures IsTerminal(s) <==> s !in {SUBMITTED, QUEUED, RUNNING, CANCELLING}
  {
    match s {
      case SUBMITTED => assert CanTransition(s, QUEUED);
      case QUEUED => assert CanTransition(s, RUNNING);
      case RUNNING => assert CanTransition(s, LOST);
      case CANCELLING => assert CanTransition(s, CANCELLED);
      case _ =>
    }
  }

  // ---- what a call writes ----

  function LaunchedAttempt(j: nat, number: nat, launch: Launch, now: Time): Attempt {
    match launch
    case NoBackend => Attempt(j, number, None, QUEUED, None, None)
    case Started(ray) => Attempt(j, number, Some(ray), RUNNING, Some(now), None)
    case Refused => Attempt(j, number, None, FAILED, None, Some(now))
  }

  function LaunchEvents(a: nat, launch: Launch): seq<(Kind, Option<nat>)> {
    match launch
    case NoBackend => []
    case Started(_) => [(Launched, Some(a))]
    case Refused => [(Entered(FAILED), Some(a))]
  }

  lemma StartHistory(db: Db, j: nat, a: nat, ray: RayId, now: Time, i: nat)
    ensures History(StartAttempt(db, j, a, ray, now).events, i)
         == History(db.events, i) + if i == j then [(Launched, Some(a))] else []
  {
    HistoryAfter(db, j, Launched, Some(a), i);
  }

  lemma NewJobHistory(db: Db, ctx: Context, req: Request, i: nat)
    ensures History(NewJob(db, ctx, req).events, i) == History(db.events, i)
            + if i == |db.jobs| then [(Entered(SUBMITTED), None), (Entered(QUEUED), Some(|db.attempts|))] else []
  {
    var j := |db.jobs|;
    var mid := WithEvent(db, j, Entered(SUBMITTED), None);
    HistoryAfter(db, j, Entered(SUBMITTED), None, i);
    HistoryAfter(mid, j, Entered(QUEUED), Some(|db.attempts|), i);
    assert NewJob(db, ctx, req).events == WithEvent(mid, j, Entered(QUEUED), Some(|db.attempts|)).events;
  }

  lemma RefusedHistory(db: Db, j: nat, a: nat, now: Time, i: nat)
    ensures History(LaunchSubmitted(db, j, a, Refused, now).events, i)
         == History(db.events, i) + if i == j then [(Entered(FAILED), Some(a))] else []
    ensures History(LaunchRetried(db, j, a, Refused, now).events, i)
         == History(db.events, i) + if i == j then [(Entered(FAILED), Some(a))] else []
  {
    HistoryAfter(db, j, Entered(FAILED), Some(a), i);
  }

  lemma LaunchHistory(db: Db, j: nat, a: nat, launch: Launch, now: Time, i: nat)
    ensures History(LaunchSubmitted(db, j, a, launch, now).events, i)
         == History(db.events, i) + if i == j then LaunchEvents(a, launch) else []
    ensures History(LaunchRetried(db, j, a, launch, now).events, i)
         == History(db.events, i) + if i == j then LaunchEvents(a, launch) else []
  {
    match launch {
      case NoBackend =>
      case Started(ray) => StartHistory(db, j, a, ray, now, i);
      case Refused => RefusedHistory(db, j, a, now, i);
    }
    hide History, StartAttempt;
  }

  /** The rows of a submission: one job and its first attempt, as the launch went. */
  lemma SubmitRows(db: Db, ctx: Context, req: Request, launch: Launch, now: Time)
    requires Linked(db)
    ensures var j, post := |db.jobs|, Submitted(db, ctx, req, launch, now);
            var queued := Job(ctx.tenant, req.key, req.timeout, QUEUED, None);
            && post.attempts == db.attempts + [LaunchedAttempt(j, 1, launch, now)]
            && post.jobs == db.jobs +
                 [match launch
                  case NoBackend => queued
                  case Started(_) => queued.(status := RUNNING)
                  case Refused => queued.(status := FAILED, finishedAt := Some(now))]
  {
    NewJobRows(db, ctx, req);
  }

  /** A new job goes along the transition table: from SUBMITTED to QUEUED, and on to where the launch takes it. */
  lemma SubmitFollowsTable(db: Db, ctx: Context, req: Request, launch: Launch, now: Time)
    requires Linked(db)
    ensures var post := Submitted(db, ctx, req, launch, now);
            && CanTransition(SUBMITTED, QUEUED)
            && |post.jobs| == |db.jobs| + 1 && InTable(QUEUED, post.jobs[|db.jobs|].status)
  {
    SubmitRows(db, ctx, req, launch, now);
    hide Submitted, Linked;
  }

  lemma SubmitEvents(db: Db, ctx: Context, req: Request, launch: Launch, now: Time, i: nat)
    ensures (History(Submitted(db, ctx, req, launch, now).events, i) ==
             History(db.events, i)
             + (if i == |db.jobs| then [(Entered(SUBMITTED), None), (Entered(QUEUED), Some(|db.attempts|))] else [])
             + (if i == |db.jobs| then LaunchEvents(|db.attempts|, launch) else []))
  {
    NewJobHistory(db, ctx, req, i);
    LaunchHistory(NewJob(db, ctx, req), |db.jobs|, |db.attempts|, launch, now, i);
    hide History, NewJob, LaunchSubmitted;
  }

  /** The rows of a retry: the next attempt, and the job reopened; a refused launch leaves the job QUEUED. */
  lemma RetryRows(db: Db, j: nat, launch: Launch, now: Time)
    requires Inv(db) && j < |db.jobs|
    ensures var post, reopened := Retried(db, j, launch, now), db.jobs[j].(status := QUEUED, finishedAt := None);
            && post.attempts ==
                 db.attempts + [LaunchedAttempt(j, Count(AttemptKeys(db.attempts), j) + 1, launch, now)]
            && post.jobs == db.jobs[j := if launch.Started? then reopened.(status := RUNNING) else reopened]
  {
    MaxIsCount(AttemptKeys(db.attempts), j);
  }

  lemma RetryEvents(db: Db, j: nat, launch: Launch, now: Time, i: nat)
    requires j < |db.jobs|
    ensures (History(Retried(db, j, launch, now).events, i) ==
             History(db.events, i)
             + (if i == j then [(Requested, Some(|db.attempts|))] else [])
             + (if i == j then LaunchEvents(|db.attempts|, launch) else []))
  {
    HistoryAfter(db, j, Requested, Some(|db.attempts|), i);
    assert Requeued(db, j).events == WithEvent(db, j, Requested, Some(|db.attempts|)).events;
    LaunchHistory(Requeued(db, j), j, |db.attempts|, launch, now, i);
    hide History, Requeued, LaunchRetried, WithEvent;
  }

  /** The rows of a cancel: only a RUNNING job passes through CANCELLING, where a call that stops early leaves it. */
  lemma CancelRows(db: Db, j: nat, stopsEarly: bool, now: Time)
    requires j < |db.jobs|
    ensures var post := Cancelled(db, j, stopsEarly, now);
            if db.jobs[j].status == RUNNING && stopsEarly
            then post == db.(jobs := db.jobs[j := db.jobs[j].(status := CANCELLING)])
            else
              && post.jobs == db.jobs[j := db.jobs[j].(status := CANCELLED, finishedAt := Some(now))]
              && |post.attempts| == |db.attempts|
              && forall a: nat | a < |db.attempts| ::
                   post.attempts[a] ==
                     if db.attempts[a].jobId == j && db.attempts[a].status in {QUEUED, RUNNING}
                     then db.attempts[a].(status := CANCELLED, finishedAt := Some(now)) else db.attempts[a]
  {
  }

  lemma CancelWrites(db: Db, j: nat, stopsEarly: bool, now: Time)
    requires j < |db.jobs| && !(db.jobs[j].status == RUNNING && stopsEarly)
    ensures var mid := if db.jobs[j].status == RUNNING then WithEvent(db, j, Entered(CANCELLING), None) else db;
            Cancelled(db, j, stopsEarly, now).events == WithEvent(mid, j, Entered(CANCELLED), None).events
  {
  }

  lemma CancelEvents(db: Db, j: nat, stopsEarly: bool, now: Time, i: nat)
    requires j < |db.jobs| && !(db.jobs[j].status == RUNNING && stopsEarly)
    ensures (History(Cancelled(db, j, stopsEarly, now).events, i) ==
             History(db.events, i)
             + (if i == j && db.jobs[j].status == RUNNING then [(Entered(CANCELLING), None)] else [])
             + (if i == j then [(Entered(CANCELLED), None)] else []))
  {
    var mid := if db.jobs[j].status == RUNNING then WithEvent(db, j, Entered(CANCELLING), None) else db;
    HistoryAfter(db, j, Entered(CANCELLING), None, i);
    HistoryAfter(mid, j, Entered(CANCELLED), None, i);
    CancelWrites(db, j, stopsEarly, now);
    hide History, Cancelled, WithEvent;
  }

  // ---- tenants are apart ----

  ghost predicate ByTenant(action: Action, tenant: string) {
    && (action.Submit? || action.Cancel? || action.Retry?)
    && !action.ctx.admin && action.ctx.tenant == tenant
  }

  /** Nothing a tenant calls touches a job of another tenant, its attempts or its events. */
  lemma TenantsAreApart(states: seq<Db>, actions: seq<Action>, k: nat, j: nat, tenant: string)
    requires IsRun(states, actions) && k < |actions| && ByTenant(actions[k], tenant)
    requires j < |states[k].jobs| && states[k].jobs[j].tenant != tenant
    ensures Same(states[k], states[k + 1], j) && History(states[k + 1].events, j) == History(states[k].events, j)
  {
    RunIsSafe(states, actions, k, k);
    var db, action, post := states[k], actions[k], states[k + 1];
    assert Inv(db) && Step(db, action, post);
    match action {
      case Submit(ctx, req, launch, now) =>
        if Existing(db, ctx, req).None? && SubmitRefusal(db, ctx, req).None? {
          SubmitLeaves(db, ctx, req, launch, now, j);
          SubmitEvents(db, ctx, req, launch, now, j);
        }
      case Cancel(ctx, other, stopsEarly, now) =>
        if CancelRefusal(db, ctx, other).None? {
          CancelDecision(db, ctx, other);
          CancelKeeps(db, other, stopsEarly, now);
          OtherJobSame(db, post, j, other);
          if !(db.jobs[other].status == RUNNING && stopsEarly) { CancelEvents(db, other, stopsEarly, now, j); }
        }
      case Retry(ctx, other, launch, now) =>
        if RetryRefusal(db, ctx, other).None? {
          RetryDecision(db, ctx, other);
          RetryLeaves(db, ctx, other, launch, now, j);
          RetryEvents(db, other, launch, now, j);
        }
    }
    hide Submitted, Cancelled, Retried, History, Safe;
  }

  // ---- a repeated key ----

  /** Once a job was submitted with a key, the same key of the same tenant returns that job, in every later state. */
  lemma RepeatedKeyReturnsEarlier(states: seq<Db>, actions: seq<Action>, i: nat, k: nat, j: nat,
                                  ctx: Context, req: Request)
    requires IsRun(states, actions) && i <= k < |states|
    requires j < |states[i].jobs| && states[i].jobs[j].tenant == ctx.tenant
    requires req.key.Some? && req.key.value != "" && states[i].jobs[j].key == req.key
    ensures Existing(states[k], ctx, req) == Some(j)
  {
    RunIsSafe(states, actions, i, k);
    var db := states[k];
    assert JobEvolves(states[i].jobs[j], db.jobs[j]);
    var found := FindByKey(db.jobs, ctx.tenant, req.key.value);
    assert db.jobs[j].tenant == ctx.tenant && db.jobs[j].key == Some(req.key.value);
    assert found.Some? && KeysUnique(db.jobs);
  }

  /** So a submission repeated with its key writes nothing, whatever happened in between. */
  lemma ResubmissionWritesNothing(states: seq<Db>, actions: seq<Action>, i: nat, k: nat)
    requires IsRun(states, actions) && i < k < |actions| && actions[i].Submit? && actions[k].Submit?
    requires Existing(states[i], actions[i].ctx, actions[i].req).None?
    requires SubmitRefusal(states[i], actions[i].ctx, actions[i].req).None?
    requires actions[k].ctx.tenant == actions[i].ctx.tenant && actions[k].req.key == actions[i].req.key
    requires actions[i].req.key.Some? && actions[i].req.key.value != ""
    ensures Existing(states[k], actions[k].ctx, actions[k].req) == Some(|states[i].jobs|)
    ensures states[k + 1] == states[k]
  {
    var db, a := states[i], actions[i];
    RunIsSafe(states, actions, i, i);
    assert Step(db, a, states[i + 1]);
    SubmitRows(db, a.ctx, a.req, a.launch, a.now);
    RepeatedKeyReturnsEarlier(states, actions, i + 1, k, |db.jobs|, actions[k].ctx, actions[k].req);
    assert Step(states[k], actions[k], states[k + 1]);
  }
}
