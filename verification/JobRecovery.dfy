/** What recovery on startup achieves, and when doing it twice is the same as doing it once. */
module JobRecovery {
  import opened Wrappers
  import opened JobStateMachine
  import opened JobTables
  import opened JobSyncService
  import opened JobSafety
  import opened JobSyncSafety

  predicate SaysStopped(answer: Answer) {
    answer.Reports? && answer.status == RayStopped
  }

  /** The answer agrees with what the tables already say, so recovery leaves the attempt alone. */
  predicate Agrees(answer: Answer, job: Job, attempt: Attempt) {
    && answer.Reports?
    && (answer.status.RayOther? || answer.status in {RayPending, RayQueued}
        || (answer.status == RayRunning && job.status == RUNNING && attempt.status == RUNNING))
  }

  /** The attempt that recovery asks Ray about. */
  predicate Asked(db: Db, j: nat, a: nat) {
    LatestOpen(db.attempts, j) == Some(a) && a < |db.attempts| && db.attempts[a].ray.Some?
  }

  /** Attempt `a` was live, and still is unless Ray just reported it as STOPPED. */
  predicate BackedBy(was: Db, post: Db, j: nat, a: nat, answer: Answer) {
    && j < |post.jobs| && a < |was.attempts| && a < |post.attempts|
    && was.attempts[a].jobId == j == post.attempts[a].jobId && Live(was.attempts[a])
    && if SaysStopped(answer) then post.attempts[a].status == CANCELLED
       else Live(post.attempts[a]) && Agrees(answer, post.jobs[j], post.attempts[a])
  }

  ghost predicate Backed(was: Db, post: Db, j: nat, answers: nat -> Answer) {
    exists a: nat :: BackedBy(was, post, j, a, answers(a))
  }

  ghost predicate Stranded(post: Db, j: nat)
    requires j < |post.jobs|
  {
    && Open(post.jobs[j].status)
    && forall a | 0 <= a < |post.attempts| && post.attempts[a].jobId == j :: !Live(post.attempts[a])
  }

  /** What recovering job `j` leaves behind. */
  ghost predicate Outcome(was: Db, post: Db, j: nat, answers: nat -> Answer) {
    && j < |was.jobs| && j < |post.jobs|
    && post.jobs[j].status != CANCELLING
    && (was.jobs[j].status == CANCELLING ==> !Open(post.jobs[j].status))
    && (Open(post.jobs[j].status) ==> Backed(was, post, j, answers))
    && (forall a | Asked(was, j, a) && Open(was.jobs[j].status) && SaysStopped(answers(a)) :: Stranded(post, j))
  }

  lemma LiveIsLatest(db: Db, a: nat)
    requires Safe(db) && a < |db.attempts| && Live(db.attempts[a])
    ensures LatestOpen(db.attempts, db.attempts[a].jobId) == Some(a)
  {
  }

  lemma LatestIsLive(db: Db, j: nat, a: nat)
    requires Asked(db, j, a)
    ensures db.attempts[a].jobId == j && Live(db.attempts[a])
  {
  }

  lemma RecoverAttemptOutcome(db: Db, j: nat, a: nat, answers: nat -> Answer, now: Time)
    requires Safe(db) && j < |db.jobs| && db.jobs[j].status in {QUEUED, RUNNING, CANCELLING}
    requires Asked(db, j, a)
    ensures Outcome(db, RecoverAttempt(db, j, db.jobs[j].status, a, answers(a), now), j, answers)
  {
    LatestIsLive(db, j, a);
    LiveIsSole(db, a);
    var post := RecoverAttempt(db, j, db.jobs[j].status, a, answers(a), now);
    assert post.attempts == db.attempts[a := post.attempts[a]];
    if Open(post.jobs[j].status) {
      assert BackedBy(db, post, j, a, answers(a));
    }
  }

  lemma RecoverJobOutcome(db: Db, j: nat, answers: nat -> Answer, now: Time)
    requires Safe(db) && j in RecoverIds(db)
    ensures Outcome(db, RecoverJob(db, j, db.jobs[j].status, answers, now), j, answers)
  {
    var found := LatestOpen(db.attempts, j);
    if found.Some? && db.attempts[found.value].ray.Some? {
      RecoverAttemptOutcome(db, j, found.value, answers, now);
    }
  }

  // ---- the outcome of one job survives the recovery of the others ----

  lemma {:induction false} LatestOpenFrame(s: seq<Attempt>, t: seq<Attempt>, j: nat)
    requires |s| == |t|
    requires forall a | 0 <= a < |s| :: s[a].jobId == t[a].jobId && (s[a].jobId == j ==> s[a] == t[a])
    ensures LatestOpen(s, j) == LatestOpen(t, j)
  {
    if s != [] { LatestOpenFrame(s[..|s| - 1], t[..|t| - 1], j); }
  }

  lemma OutcomeFromStart(db: Db, before: Db, post: Db, done: set<nat>, j: nat, answers: nat -> Answer)
    requires OnlyJobs(db, before, done) && j !in done && j < |db.jobs|
    requires Outcome(before, post, j, answers)
    ensures Outcome(db, post, j, answers)
  {
    LatestOpenFrame(db.attempts, before.attempts, j);
    if Open(post.jobs[j].status) {
      var a: nat :| BackedBy(before, post, j, a, answers(a));
      assert BackedBy(db, post, j, a, answers(a));
    }
  }

  lemma OutcomeStays(db: Db, before: Db, post: Db, j: nat, other: nat, answers: nat -> Answer)
    requires Outcome(db, before, j, answers) && OnlyJob(before, post, other) && j != other
    requires SameAttempts(db, before)
    ensures Outcome(db, post, j, answers)
  {
  }

  ghost predicate AllOutcomes(was: Db, post: Db, jobs: set<nat>, answers: nat -> Answer) {
    forall j | j in jobs :: Outcome(was, post, j, answers)
  }

  lemma {:induction false} OutcomesHold(db: Db, order: seq<nat>, n: nat, answers: nat -> Answer, now: Time)
    requires Safe(db) && Enumerates(order, RecoverIds(db)) && n <= |order|
    ensures forall j | j in order :: j < |db.jobs|
    ensures AllOutcomes(db, RecoverJobs(db, FetchJobs(db, order)[..n], answers, now), Done(order, n), answers)
  {
    forall j | j in order ensures j < |db.jobs| { assert j in RecoverIds(db); }
    var rows := FetchJobs(db, order);
    if n > 0 {
      var j := order[n - 1];
      assert j in order && j in RecoverIds(db);
      assert rows[..n][..n - 1] == rows[..n - 1];
      hide Progress, AllOutcomes;
      OutcomesHold(db, order, n - 1, answers, now);
      RecoverJobsKeep(db, order, n - 1, answers, now);
      DoneIsPrefix(order, n - 1);
      var before := RecoverJobs(db, rows[..n - 1], answers, now);
      OutcomeStep(db, before, Done(order, n - 1), j, answers, now);
    }
  }

  lemma OutcomeStep(db: Db, before: Db, done: set<nat>, j: nat, answers: nat -> Answer, now: Time)
    requires Progress(db, before, done) && j in RecoverIds(db) && j !in done
    requires AllOutcomes(db, before, done, answers)
    ensures AllOutcomes(db, RecoverJob(before, j, db.jobs[j].status, answers, now), done + {j}, answers)
  {
    var post := RecoverJob(before, j, db.jobs[j].status, answers, now);
    RecoverJobOutcome(before, j, answers, now);
    RecoverJobKeeps(before, j, answers, now);
    OutcomeFromStart(db, before, post, done, j, answers);
    forall k | k in done ensures Outcome(db, post, k, answers) {
      OutcomeStays(db, before, post, k, j, answers);
    }
  }

  // ---- main results ----

  /** The tables after a whole recovery that fetched the jobs in this order. */
  ghost function Recovered(db: Db, order: seq<nat>, answers: nat -> Answer, now: Time): Db
    requires Enumerates(order, RecoverIds(db))
  {
    assert forall j | j in order :: j in RecoverIds(db);
    RecoverJobs(db, FetchJobs(db, order), answers, now)
  }

  lemma OutcomeOfAll(db: Db, order: seq<nat>, answers: nat -> Answer, now: Time)
    requires Safe(db) && Enumerates(order, RecoverIds(db))
    ensures var post := Recovered(db, order, answers, now);
            && Safe(post) && |post.jobs| == |db.jobs|
            && (forall j | j in RecoverIds(db) :: Outcome(db, post, j, answers))
            && (forall j | 0 <= j < |db.jobs| && j !in RecoverIds(db) :: post.jobs[j] == db.jobs[j])
  {
    OutcomesHold(db, order, |order|, answers, now);
    var rows := FetchJobs(db, order);
    assert rows[..|order|] == rows;
    RecoverJobsKeep(db, order, |order|, answers, now);
    DoneIsPrefix(order, |order|);
    forall j ensures j in Done(order, |order|) <==> j in RecoverIds(db) {
      assert j in order <==> j in RecoverIds(db);
    }
  }

  /**
   After recovery no job is CANCELLING, and every job still QUEUED or RUNNING has the live attempt
   it had before, or one closed just now because Ray said STOPPED.
   */
  lemma RecoverySettles(db: Db, order: seq<nat>, answers: nat -> Answer, now: Time, j: nat)
    requires Safe(db) && Enumerates(order, RecoverIds(db)) && j < |db.jobs|
    ensures var post := Recovered(db, order, answers, now);
            && |post.jobs| == |db.jobs|
            && post.jobs[j].status != CANCELLING
            && (Open(post.jobs[j].status) ==> Backed(db, post, j, answers))
  {
    OutcomeOfAll(db, order, answers, now);
    var post := Recovered(db, order, answers, now);
    assert j in RecoverIds(db) || post.jobs[j] == db.jobs[j];
  }

  /** Ray says STOPPED about the attempt of a job that nobody is cancelling. */
  ghost predicate SomeStopped(db: Db, answers: nat -> Answer) {
    exists j, a | 0 <= j < |db.jobs| && Asked(db, j, a) :: Open(db.jobs[j].status) && SaysStopped(answers(a))
  }

  lemma RecoverAgain(post: Db, j: nat, a: nat, answers: nat -> Answer, now: Time)
    requires Safe(post) && j < |post.jobs| && Open(post.jobs[j].status)
    requires a < |post.attempts| && post.attempts[a].jobId == j && Live(post.attempts[a])
    requires Agrees(answers(a), post.jobs[j], post.attempts[a])
    ensures RecoverJob(post, j, post.jobs[j].status, answers, now) == post
  {
    LiveIsLatest(post, a);
    assert AttemptOk(post.attempts[a]);
    assert post.jobs[j := post.jobs[j]] == post.jobs;
    assert post.attempts[a := post.attempts[a]] == post.attempts;
  }

  lemma {:induction false} RecoverNothing(db: Db, rows: seq<(nat, Status)>, answers: nat -> Answer, now: Time)
    requires forall i | 0 <= i < |rows| :: RecoverJob(db, rows[i].0, rows[i].1, answers, now) == db
    ensures RecoverJobs(db, rows, answers, now) == db
  {
    if rows != [] { RecoverNothing(db, rows[..|rows| - 1], answers, now); }
  }

  /**
   A second recovery on the same answers changes the tables exactly when Ray said STOPPED about
   a job nobody was cancelling.
   */
  lemma RecoveryIdempotence(db: Db, order: seq<nat>, next: seq<nat>, answers: nat -> Answer, now: Time, later: Time)
    requires Safe(db) && Enumerates(order, RecoverIds(db))
    requires Enumerates(next, RecoverIds(Recovered(db, order, answers, now)))
    ensures var post := Recovered(db, order, answers, now);
            Recovered(post, next, answers, later) == post <==> !SomeStopped(db, answers)
  {
    var post := Recovered(db, order, answers, now);
    OutcomeOfAll(db, order, answers, now);
    if SomeStopped(db, answers) {
      var j, a :| 0 <= j < |db.jobs| && Asked(db, j, a) && Open(db.jobs[j].status) && SaysStopped(answers(a));
      assert j in RecoverIds(db);
      OutcomeOfAll(post, next, answers, later);
      assert Stranded(post, j) && j in RecoverIds(post);
    } else {
      forall i | 0 <= i < |next|
        ensures next[i] < |post.jobs| && RecoverJob(post, next[i], post.jobs[next[i]].status, answers, later) == post
      {
        assert next[i] in next && next[i] in RecoverIds(post);
        UnstoppedStays(db, post, answers, next[i], later);
      }
      assert forall j | j in next :: j in RecoverIds(post);
      RecoverNothing(post, FetchJobs(post, next), answers, later);
    }
  }

  lemma UnstoppedStays(db: Db, post: Db, answers: nat -> Answer, j: nat, later: Time)
    requires Safe(db) && Safe(post) && !SomeStopped(db, answers)
    requires j in RecoverIds(db) && j in RecoverIds(post) && Outcome(db, post, j, answers)
    ensures RecoverJob(post, j, post.jobs[j].status, answers, later) == post
  {
    assert Open(post.jobs[j].status) && Open(db.jobs[j].status);
    var a: nat :| BackedBy(db, post, j, a, answers(a));
    LiveIsLatest(db, a);
    assert Asked(db, j, a);
    assert !SaysStopped(answers(a));
    RecoverAgain(post, j, a, answers, later);
  }
}
