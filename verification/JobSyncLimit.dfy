/** How many RUNNING jobs a sync leaves each tenant. */
module JobSyncLimit {
  import opened Wrappers
  import opened JobStateMachine
  import opened JobTables
  import opened JobService
  import opened JobSyncService
  import opened JobSafety
  import opened JobSyncSafety
  import opened JobVerdicts
  import opened JobRuns
  import opened JobConcurrency

  // ---- counting ----

  /** Jobs of the tenant among those positions. */
  function HowMany(jobs: seq<Job>, tenant: string, which: set<nat>): nat {
    if jobs == [] then 0
    else
      var n := |jobs| - 1;
      HowMany(jobs[..n], tenant, which) + if jobs[n].tenant == tenant && n in which then 1 else 0
  }

  lemma {:induction false} Tally(was: seq<Job>, post: seq<Job>, up: set<nat>, down: set<nat>, tenant: string)
    requires |was| == |post|
    requires forall j: nat | j < |was| ::
               && post[j].tenant == was[j].tenant
               && (j in up ==> was[j].status != RUNNING) && (j in down ==> was[j].status == RUNNING)
               && (post[j].status == RUNNING <==> j in up || (was[j].status == RUNNING && j !in down))
    ensures CountRunning(post, tenant) + HowMany(was, tenant, down)
            == CountRunning(was, tenant) + HowMany(was, tenant, up)
  {
    if was != [] { Tally(was[..|was| - 1], post[..|post| - 1], up, down, tenant); }
  }

  /** The answer about the job's live attempt gives it this status. */
  ghost predicate Becomes(db: Db, answers: nat -> Answer, j: nat, to: Status)
    requires j < |db.jobs|
  {
    exists a | a in LiveIds(db) && db.attempts[a].jobId == j :: JobAfterSync(db.jobs[j], answers(a), 0).status == to
  }

  /** Waiting jobs whose attempt Ray reports as running. */
  ghost function Resuming(db: Db, answers: nat -> Answer): set<nat> {
    set j: nat | j < |db.jobs| && db.jobs[j].status == QUEUED && Becomes(db, answers, j, RUNNING)
  }

  /** Running jobs whose attempt Ray reports as waiting again or over, or that cannot be asked about. */
  ghost function Yielding(db: Db, answers: nat -> Answer): set<nat> {
    set j: nat | j < |db.jobs| && db.jobs[j].status == RUNNING && HasLive(db, j) && !Becomes(db, answers, j, RUNNING)
  }

  lemma RunningAfter(db: Db, order: seq<nat>, answers: nat -> Answer, now: Time, j: nat)
    requires Safe(db) && Enumerates(order, LiveIds(db)) && j < |db.jobs|
    ensures var post, up, down := SyncedAll(db, order, answers, now), Resuming(db, answers), Yielding(db, answers);
            && |post.jobs| == |db.jobs| && post.jobs[j].tenant == db.jobs[j].tenant
            && (j in up ==> db.jobs[j].status != RUNNING) && (j in down ==> db.jobs[j].status == RUNNING)
            && (post.jobs[j].status == RUNNING <==> j in up || (db.jobs[j].status == RUNNING && j !in down))
  {
    SyncOutcome(db, order, answers, now);
    var post := SyncedAll(db, order, answers, now);
    if HasLive(db, j) {
      var a :| 0 <= a < |db.attempts| && Live(db.attempts[a]) && db.attempts[a].jobId == j;
      assert a in LiveIds(db);
      BecomesSynced(db, post, answers, a, now);
    } else {
      assert SameView(db, post, j);
    }
    hide SyncedAll, Safe, Becomes, HasLive;
  }

  lemma BecomesSynced(db: Db, post: Db, answers: nat -> Answer, a: nat, now: Time)
    requires Safe(db) && a in LiveIds(db) && SyncVerdict(db, post, a, answers(a), now)
    ensures var j := db.attempts[a].jobId;
            && HasLive(db, j) && post.jobs[j].tenant == db.jobs[j].tenant
            && (Becomes(db, answers, j, RUNNING) <==> post.jobs[j].status == RUNNING)
  {
    SoleLive(db, a);
  }

  lemma SoleLive(db: Db, a: nat)
    requires Safe(db) && a in LiveIds(db)
    ensures forall b | b in LiveIds(db) && db.attempts[b].jobId == db.attempts[a].jobId :: b == a
  {
  }

  /** A sync turns as many jobs RUNNING as resume, and takes away as many as yield, tenant by tenant. */
  lemma SyncCount(db: Db, order: seq<nat>, answers: nat -> Answer, now: Time, tenant: string)
    requires Safe(db) && Enumerates(order, LiveIds(db))
    ensures CountRunning(SyncedAll(db, order, answers, now).jobs, tenant)
            + HowMany(db.jobs, tenant, Yielding(db, answers))
            == CountRunning(db.jobs, tenant) + HowMany(db.jobs, tenant, Resuming(db, answers))
  {
    SyncOutcome(db, order, answers, now);
    var post := SyncedAll(db, order, answers, now);
    hide SyncedAll, Safe, Resuming, Yielding;
    forall j: nat | j < |db.jobs|
      ensures && post.jobs[j].tenant == db.jobs[j].tenant
              && (j in Resuming(db, answers) ==> db.jobs[j].status != RUNNING)
              && (j in Yielding(db, answers) ==> db.jobs[j].status == RUNNING)
              && (post.jobs[j].status == RUNNING <==>
                    j in Resuming(db, answers) || (db.jobs[j].status == RUNNING && j !in Yielding(db, answers)))
    {
      RunningAfter(db, order, answers, now, j);
    }
    Tally(db.jobs, post.jobs, Resuming(db, answers), Yielding(db, answers), tenant);
  }

  /** A sync leaves every tenant within the limit exactly when no tenant resumes more jobs than it has room for. */
  lemma SyncLimit(db: Db, order: seq<nat>, answers: nat -> Answer, now: Time)
    requires Safe(db) && Enumerates(order, LiveIds(db))
    ensures WithinLimit(SyncedAll(db, order, answers, now)) <==>
            forall tenant :: CountRunning(db.jobs, tenant) + HowMany(db.jobs, tenant, Resuming(db, answers))
                             <= MAX_CONCURRENT + HowMany(db.jobs, tenant, Yielding(db, answers))
  {
    forall tenant { SyncCount(db, order, answers, now, tenant); }
    hide SyncedAll, Safe, Resuming, Yielding;
    var post := SyncedAll(db, order, answers, now);
    if forall tenant :: CountRunning(db.jobs, tenant) + HowMany(db.jobs, tenant, Resuming(db, answers))
                        <= MAX_CONCURRENT + HowMany(db.jobs, tenant, Yielding(db, answers)) {
      forall tenant ensures CountRunning(post.jobs, tenant) <= MAX_CONCURRENT {
        SyncCount(db, order, answers, now, tenant);
      }
    } else {
      var tenant :| CountRunning(db.jobs, tenant) + HowMany(db.jobs, tenant, Resuming(db, answers))
                    > MAX_CONCURRENT + HowMany(db.jobs, tenant, Yielding(db, answers));
      SyncCount(db, order, answers, now, tenant);
      assert CountRunning(post.jobs, tenant) > MAX_CONCURRENT;
    }
  }

  // ---- a run without retry that exceeds the limit ----

  function LiveBelow(attempts: seq<Attempt>, n: nat): seq<nat>
    requires n <= |attempts|
  {
    if n == 0 then [] else LiveBelow(attempts, n - 1) + if Live(attempts[n - 1]) then [n - 1] else []
  }

  lemma {:induction false} LiveBelowIs(attempts: seq<Attempt>, n: nat)
    requires n <= |attempts|
    ensures forall a: nat :: a in LiveBelow(attempts, n) <==> a < n && Live(attempts[a])
    ensures forall i, k | 0 <= i < k < |LiveBelow(attempts, n)| ::
              LiveBelow(attempts, n)[i] != LiveBelow(attempts, n)[k]
  {
    if n > 0 { LiveBelowIs(attempts, n - 1); }
  }

  /** Ray gives the same report about every attempt. */
  function Always(report: RayStatus): nat -> Answer {
    a => Reports(report, false)
  }

  /** A sync in which Ray gives the same report about every attempt extends a run. */
  lemma SyncStep(states: seq<Db>, actions: seq<Action>, report: RayStatus)
    returns (states': seq<Db>, actions': seq<Action>, order: seq<nat>)
    requires IsRun(states, actions)
    ensures var db := states[|states| - 1];
            && Inv(db) && Enumerates(order, LiveIds(db)) && IsRun(states', actions')
            && actions' == actions + [SyncAll(order, Always(report), 0)]
            && states'[|states'| - 1] == SyncedAll(db, order, Always(report), 0)
  {
    LastIsSafe(states, actions);
    var db, answers := states[|states| - 1], Always(report);
    order := LiveBelow(db.attempts, |db.attempts|);
    LiveBelowIs(db.attempts, |db.attempts|);
    assert forall x :: x in order <==> x in LiveIds(db);
    var post := SyncedAll(db, order, answers, 0);
    assert Step(db, SyncAll(order, answers, 0), post);
    ExtendRun(states, actions, SyncAll(order, answers, 0), post);
    states', actions' := states + [post], actions + [SyncAll(order, answers, 0)];
  }

  /** What such a sync does to a job with a live attempt, when Ray reports that the attempt goes on. */
  lemma SyncMovesJob(db: Db, order: seq<nat>, report: RayStatus, j: nat)
    requires Safe(db) && Enumerates(order, LiveIds(db)) && HasLive(db, j) && report in {RayPending, RayRunning}
    ensures var post := SyncedAll(db, order, Always(report), 0);
            && j < |post.jobs| == |db.jobs| && post.jobs[j].tenant == db.jobs[j].tenant
            && post.jobs[j].status == JobAfterSync(db.jobs[j], Reports(report, false), 0).status && HasLive(post, j)
  {
    var answers := Always(report);
    SyncOutcome(db, order, answers, 0);
    var a: nat :| a < |db.attempts| && Live(db.attempts[a]) && db.attempts[a].jobId == j;
    assert a in LiveIds(db);
    var post := SyncedAll(db, order, answers, 0);
    assert SyncVerdict(db, post, a, answers(a), 0);
    assert Live(post.attempts[a]);
  }

  lemma SameRunning(was: seq<Job>, post: seq<Job>, tenant: string)
    requires |was| == |post|
    requires forall j | 0 <= j < |was| ::
               post[j].tenant == was[j].tenant && (post[j].status == RUNNING <==> was[j].status == RUNNING)
    ensures CountRunning(post, tenant) == CountRunning(was, tenant)
  {
    FewerRunning(was, post, tenant);
    FewerRunning(post, was, tenant);
  }

  lemma {:induction false} NoneRunning(jobs: seq<Job>, tenant: string)
    requires forall j | 0 <= j < |jobs| :: jobs[j].status != RUNNING
    ensures CountRunning(jobs, tenant) == 0
  {
    if jobs != [] { NoneRunning(jobs[..|jobs| - 1], tenant); }
  }

  /** Every running job of `db` waits in `post`, with an attempt that Ray knows about; nothing else changed. */
  ghost predicate Parked(db: Db, post: Db) {
    && |post.jobs| >= |db.jobs|
    && forall j: nat | j < |db.jobs| ::
         && post.jobs[j].tenant == db.jobs[j].tenant
         && if db.jobs[j].status == RUNNING then post.jobs[j].status == QUEUED && HasLive(post, j)
            else post.jobs[j].status == FAILED && !HasLive(post, j)
  }

  lemma FailedHasNone(db: Db, j: nat)
    requires Safe(db) && j < |db.jobs| && db.jobs[j].status == FAILED
    ensures !HasLive(db, j)
  {
  }

  lemma SyncParks(db: Db, order: seq<nat>)
    requires Safe(db) && AllStarted(db) && Enumerates(order, LiveIds(db))
    ensures var post := SyncedAll(db, order, Always(RayPending), 0);
            |post.jobs| == |db.jobs| && Parked(db, post) && CountRunning(post.jobs, "acme") == 0
  {
    var post := SyncedAll(db, order, Always(RayPending), 0);
    SyncOutcome(db, order, Always(RayPending), 0);
    forall j: nat | j < |db.jobs|
      ensures && post.jobs[j].tenant == db.jobs[j].tenant
              && if db.jobs[j].status == RUNNING then post.jobs[j].status == QUEUED && HasLive(post, j)
                 else post.jobs[j].status == FAILED && !HasLive(post, j)
    {
      if db.jobs[j].status == RUNNING {
        SyncMovesJob(db, order, RayPending, j);
      } else {
        FailedHasNone(db, j);
        FailedHasNone(post, j);
      }
    }
    NoneRunning(post.jobs, "acme");
  }

  lemma SubmitKeepsParked(db: Db, parked: Db, post: Db)
    requires Parked(db, parked) && |parked.jobs| == |db.jobs| && Inv(parked) && CountRunning(parked.jobs, "acme") == 0
    requires post == Submitted(parked, OWNER, PLAIN, Started(0), 0)
    ensures Step(parked, Submit(OWNER, PLAIN, Started(0), 0), post)
    ensures |post.jobs| == |db.jobs| + 1 && HasLive(post, |db.jobs|)
    ensures post.jobs[|db.jobs|].status == RUNNING && post.jobs[|db.jobs|].tenant == "acme"
    ensures forall j: nat | j < |db.jobs| ::
              && post.jobs[j] == parked.jobs[j] && (db.jobs[j].status == RUNNING ==> HasLive(post, j))
  {
    OneMoreJob(parked, Started(0), post);
    OneMoreAttempt(parked, Started(0), post);
    forall j: nat | j < |db.jobs|
      ensures post.jobs[j] == parked.jobs[j] && (db.jobs[j].status == RUNNING ==> HasLive(post, j))
    {
      assert post.jobs[j] == post.jobs[..|parked.jobs|][j];
      if db.jobs[j].status == RUNNING { LiveStays(parked, post, j); }
    }
  }

  /** The same statuses and one more running job. */
  lemma OneMoreCounted(jobs: seq<Job>, post: seq<Job>)
    requires |post| == |jobs| + 1 && post[|jobs|].status == RUNNING && post[|jobs|].tenant == "acme"
    requires forall j: nat | j < |jobs| ::
               post[j].tenant == jobs[j].tenant && (post[j].status == RUNNING <==> jobs[j].status == RUNNING)
    ensures CountRunning(post, "acme") == CountRunning(jobs, "acme") + 1
  {
    var n := |jobs|;
    SameRunning(jobs, post[..n], "acme");
    AppendedRunning(post[..n], post[n], "acme");
    assert post == post[..n] + [post[n]];
  }

  lemma SyncResumesJob(db: Db, parked: Db, before: Db, order: seq<nat>, j: nat)
    requires Safe(before) && Enumerates(order, LiveIds(before)) && j < |db.jobs| < |before.jobs|
    requires Parked(db, parked) && |parked.jobs| == |db.jobs|
    requires before.jobs[j] == parked.jobs[j] && (db.jobs[j].status == RUNNING ==> HasLive(before, j))
    ensures var post := SyncedAll(before, order, Always(RayRunning), 0);
            && |post.jobs| == |before.jobs| && post.jobs[j].tenant == db.jobs[j].tenant
            && (post.jobs[j].status == RUNNING <==> db.jobs[j].status == RUNNING)
  {
    SyncOutcome(before, order, Always(RayRunning), 0);
    if db.jobs[j].status == RUNNING {
      SyncMovesJob(before, order, RayRunning, j);
    } else {
      FailedHasNone(before, j);
    }
  }

  lemma SyncResumes(db: Db, parked: Db, before: Db, order: seq<nat>)
    requires Safe(before) && Enumerates(order, LiveIds(before)) && |before.jobs| == |db.jobs| + 1
    requires before.jobs[|db.jobs|].status == RUNNING && before.jobs[|db.jobs|].tenant == "acme"
    requires HasLive(before, |db.jobs|)
    requires Parked(db, parked) && |parked.jobs| == |db.jobs|
    requires forall j: nat | j < |db.jobs| ::
               && before.jobs[j] == parked.jobs[j] && (db.jobs[j].status == RUNNING ==> HasLive(before, j))
    ensures var post := SyncedAll(before, order, Always(RayRunning), 0);
            CountRunning(post.jobs, "acme") == CountRunning(db.jobs, "acme") + 1
  {
    hide HasLive, Parked, CountRunning;
    var post := SyncedAll(before, order, Always(RayRunning), 0);
    SyncMovesJob(before, order, RayRunning, |db.jobs|);
    forall j: nat | j < |db.jobs|
      ensures |post.jobs| == |before.jobs| && post.jobs[j].tenant == db.jobs[j].tenant
      ensures post.jobs[j].status == RUNNING <==> db.jobs[j].status == RUNNING
    {
      SyncResumesJob(db, parked, before, order, j);
    }
    OneMoreCounted(db.jobs, post.jobs);
  }

  lemma InvIsSafe(db: Db)
    requires Inv(db)
    ensures Safe(db)
  {
  }

  ghost predicate NoRetry(actions: seq<Action>) {
    forall i | 0 <= i < |actions| :: actions[i].Submit? || actions[i].SyncAll?
  }

  lemma NoRetryYet(actions: seq<Action>, action: Action)
    requires NoRetry(actions) && (action.Submit? || action.SyncAll?)
    ensures NoRetry(actions + [action])
  {
  }

  /** What holds of the tables just before Ray reports everything as running: 31 jobs are about to run. */
  ghost predicate AboutToResume(db: Db, parked: Db, before: Db) {
    && CountRunning(db.jobs, "acme") == MAX_CONCURRENT
    && Parked(db, parked) && |parked.jobs| == |db.jobs| && |before.jobs| == |db.jobs| + 1
    && before.jobs[|db.jobs|].status == RUNNING && before.jobs[|db.jobs|].tenant == "acme" && HasLive(before, |db.jobs|)
    && forall j: nat | j < |db.jobs| ::
         before.jobs[j] == parked.jobs[j] && (db.jobs[j].status == RUNNING ==> HasLive(before, j))
  }

  /** The busy tenant's jobs are all reported as pending. */
  lemma ParkedRun() returns (states: seq<Db>, actions: seq<Action>, db: Db)
    ensures IsRun(states, actions) && NoRetry(actions) && |states| > 0
    ensures var parked := states[|states| - 1];
            && CountRunning(db.jobs, "acme") == MAX_CONCURRENT && Parked(db, parked) && |parked.jobs| == |db.jobs|
            && Inv(parked) && CountRunning(parked.jobs, "acme") == 0
  {
    states, actions := BusyTenant(MAX_CONCURRENT);
    db := states[|states| - 1];
    assert NoRetry(actions);
    var busy := actions;
    hide Inv, Step, Parked, SyncedAll, AllStarted, NoRetry;
    var order;
    states, actions, order := SyncStep(states, actions, RayPending);
    NoRetryYet(busy, SyncAll(order, Always(RayPending), 0));
    InvIsSafe(db);
    SyncParks(db, order);
    LastIsSafe(states, actions);
  }

  /** Then one more is submitted. */
  lemma OneMoreRun() returns (states: seq<Db>, actions: seq<Action>, db: Db, parked: Db)
    ensures IsRun(states, actions) && NoRetry(actions) && |states| > 0
    ensures AboutToResume(db, parked, states[|states| - 1])
  {
    states, actions, db := ParkedRun();
    parked := states[|states| - 1];
    hide Inv, Step, Parked, NoRetry, Submitted;
    var more := Submitted(parked, OWNER, PLAIN, Started(0), 0);
    SubmitKeepsParked(db, parked, more);
    ExtendRun(states, actions, Submit(OWNER, PLAIN, Started(0), 0), more);
    NoRetryYet(actions, Submit(OWNER, PLAIN, Started(0), 0));
    states, actions := states + [more], actions + [Submit(OWNER, PLAIN, Started(0), 0)];
  }

  /**
   Submissions and two syncs suffice: 30 jobs run, Ray reports all of them as pending, one more is submitted,
   and Ray reports all of them as running.
   */
  lemma RequeueExceedsLimit() returns (states: seq<Db>, actions: seq<Action>)
    ensures IsRun(states, actions)
    ensures forall i | 0 <= i < |actions| :: actions[i].Submit? || actions[i].SyncAll?
    ensures CountRunning(states[|states| - 1].jobs, "acme") == 31
  {
    var db, parked, order;
    states, actions, db, parked := OneMoreRun();
    var before, earlier := states[|states| - 1], actions;
    hide Inv, Step, Parked, SyncedAll;
    states, actions, order := SyncStep(states, actions, RayRunning);
    NoRetryYet(earlier, SyncAll(order, Always(RayRunning), 0));
    InvIsSafe(before);
    SyncResumes(db, parked, before, order);
  }
}
