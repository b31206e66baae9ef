/** Sync, timeouts and recovery keep the joint invariant, for any answers of Ray. */
module JobSyncSafety {
  import opened Wrappers
  import opened JobStateMachine
  import opened JobTables
  import opened Numbering
  import opened JobSyncService
  import opened JobSafety

  lemma LostKeeps(db: Db, a: nat, j: nat, now: Time)
    requires Safe(db) && a < |db.attempts| && Live(db.attempts[a]) && j == db.attempts[a].jobId
    ensures var post := MarkLost(db, a, j, now); Kept(db, post, j) && Logged(db, post)
  {
    LiveIsSole(db, a);
    EventLogged(db, j, Entered(LOST), Some(a));
    RewriteKeeps(db, MarkLost(db, a, j, now), a, j);
  }

  lemma FinishLogged(db: Db, a: nat, j: nat, to: Status, hasResult: bool, now: Time)
    ensures Logged(db, FinalizeJob(CollectResult(UpdateAttemptStatus(db, a, to, now), a, j, hasResult), j, to, now))
  {
    var collected := CollectResult(db, a, j, hasResult);
    EventLogged(db, j, ArtifactCreated, Some(a));
    EventLogged(collected, j, Entered(to), None);
    var closed := CloseOpenJob(CollectResult(UpdateAttemptStatus(db, a, to, now), a, j, hasResult), j, to, now);
    assert closed.events == collected.events;
  }

  /** Ray says the attempt is over: it closes, and so does its job unless the answer was STOPPED. */
  lemma FinishKeeps(db: Db, a: nat, j: nat, to: Status, hasResult: bool, now: Time)
    requires Safe(db) && a < |db.attempts| && Live(db.attempts[a]) && j == db.attempts[a].jobId
    requires to in {SUCCEEDED, FAILED, CANCELLED}
    ensures var post := FinalizeJob(CollectResult(UpdateAttemptStatus(db, a, to, now), a, j, hasResult), j, to, now);
            Kept(db, post, j) && Logged(db, post)
  {
    LiveIsSole(db, a);
    FinishLogged(db, a, j, to, hasResult, now);
    var post := FinalizeJob(CollectResult(UpdateAttemptStatus(db, a, to, now), a, j, hasResult), j, to, now);
    RewriteKeeps(db, post, a, j);
  }

  /** Ray says the attempt waits or runs: it follows, and its job moves between QUEUED and RUNNING. */
  lemma OngoingKeeps(db: Db, row: Row, to: Status, now: Time)
    requires Safe(db) && row.attemptId < |db.attempts| && db.attempts[row.attemptId] == row.attempt
    requires Live(row.attempt) && row.jobStatus == db.jobs[row.attempt.jobId].status && to in {QUEUED, RUNNING}
    ensures var post := SyncReported(db, row, to, false, now); Kept(db, post, row.attempt.jobId) && Logged(db, post)
  {
    LiveIsSole(db, row.attemptId);
    var post := SyncReported(db, row, to, false, now);
    assert JobOk(db.jobs[row.attempt.jobId]) && AttemptOk(row.attempt);
    RewriteKeeps(db, post, row.attemptId, row.attempt.jobId);
  }

  lemma SyncRowKeeps(db: Db, row: Row, answer: Answer, now: Time)
    requires Safe(db) && row.attemptId < |db.attempts| && db.attempts[row.attemptId] == row.attempt
    requires Live(row.attempt) && row.jobStatus == db.jobs[row.attempt.jobId].status
    ensures var post := SyncRow(db, row, answer, now);
            Kept(db, post, row.attempt.jobId) && Logged(db, post)
  {
    NothingKept(db, row.attempt.jobId);
    hide Kept, Logged, Safe, UpdateAttemptStatus, FinalizeJob, MarkLost;
    var a, j := row.attemptId, row.attempt.jobId;
    if answer.Unreachable? {
      LostKeeps(db, a, j, now);
    } else if MapRay(answer.status).Some? {
      var to := MapRay(answer.status).value;
      if to in {SUCCEEDED, FAILED, CANCELLED} {
        FinishKeeps(db, a, j, to, to == SUCCEEDED && answer.hasResult, now);
      } else {
        OngoingKeeps(db, row, to, now);
      }
    }
  }

  /** Two live attempts never share a job, so no fetched row goes stale during the loop. */
  lemma LiveJobsDiffer(db: Db, a: nat, b: nat)
    requires Safe(db) && a < |db.attempts| && b < |db.attempts| && a != b
    requires Live(db.attempts[a]) && Live(db.attempts[b])
    ensures db.attempts[a].jobId != db.attempts[b].jobId
  {
  }

  /** The first `n` fetched ids. */
  ghost function Done(order: seq<nat>, n: nat): set<nat>
    requires n <= |order|
  {
    if n == 0 then {} else Done(order, n - 1) + {order[n - 1]}
  }

  lemma {:induction false} DoneIsPrefix(order: seq<nat>, n: nat)
    requires n <= |order|
    ensures forall x :: x in Done(order, n) <==> exists i | 0 <= i < n :: order[i] == x
  {
    if n > 0 { DoneIsPrefix(order, n - 1); }
  }

  /** Only the fetched jobs and their attempts were written so far. */
  ghost predicate OnlyJobs(was: Db, post: Db, jobs: set<nat>) {
    && |post.jobs| == |was.jobs| && SameAttempts(was, post)
    && (forall j | 0 <= j < |was.jobs| && j !in jobs :: post.jobs[j] == was.jobs[j])
    && (forall a | 0 <= a < |was.attempts| && was.attempts[a].jobId !in jobs :: post.attempts[a] == was.attempts[a])
  }

  ghost predicate Progress(db: Db, post: Db, done: set<nat>) {
    Safe(post) && Evolves(db, post) && Logged(db, post) && OnlyJobs(db, post, done)
  }

  /** The jobs of the first `n` fetched attempts. */
  ghost function DoneJobs(db: Db, order: seq<nat>, n: nat): set<nat>
    requires n <= |order| && forall a | a in order :: a < |db.attempts|
  {
    if n == 0 then {}
    else
      assert order[n - 1] in order;
      DoneJobs(db, order, n - 1) + {db.attempts[order[n - 1]].jobId}
  }

  ghost predicate LiveOrder(db: Db, order: seq<nat>) {
    && (forall i, k | 0 <= i < k < |order| :: order[i] != order[k])
    && (forall a | a in order :: a < |db.attempts| && Live(db.attempts[a]))
  }

  lemma {:induction false} NextJobNotDone(db: Db, order: seq<nat>, n: nat, m: nat)
    requires Safe(db) && LiveOrder(db, order) && n <= m < |order|
    ensures order[m] in order && db.attempts[order[m]].jobId !in DoneJobs(db, order, n)
  {
    assert order[m] in order;
    if n > 0 {
      NextJobNotDone(db, order, n - 1, m);
      assert order[n - 1] in order;
      LiveJobsDiffer(db, order[n - 1], order[m]);
    }
  }

  lemma ProgressStep(db: Db, before: Db, post: Db, done: set<nat>, j: nat)
    requires Progress(db, before, done) && Kept(before, post, j) && Logged(before, post)
    ensures Progress(db, post, done + {j})
  {
    EvolvesTransitive(db, before, post);
  }

  lemma SyncStep(db: Db, before: Db, done: set<nat>, a: nat, answer: Answer, now: Time)
    requires Safe(db) && Progress(db, before, done)
    requires a < |db.attempts| && Live(db.attempts[a]) && db.attempts[a].jobId !in done
    ensures var j := db.attempts[a].jobId;
            Progress(db, SyncRow(before, RowOf(db, a), answer, now), done + {j})
  {
    var j := db.attempts[a].jobId;
    var row := RowOf(db, a);
    SyncRowKeeps(before, row, answer, now);
    ProgressStep(db, before, SyncRow(before, row, answer, now), done, j);
  }

  /** Every fetched attempt has a row and a job. */
  ghost predicate Fetchable(db: Db, order: seq<nat>) {
    forall a | a in order :: a < |db.attempts| && db.attempts[a].jobId < |db.jobs|
  }

  lemma FetchedAreLive(db: Db, order: seq<nat>)
    requires Safe(db) && Enumerates(order, LiveIds(db))
    ensures LiveOrder(db, order)
    ensures Fetchable(db, order)
  {
    assert forall a | a in order :: a in LiveIds(db);
  }

  /** The tables after the first `n` fetched rows. */
  ghost function SyncedTo(db: Db, order: seq<nat>, n: nat, answers: nat -> Answer, now: Time): Db
    requires Fetchable(db, order) && n <= |order|
  {
    SyncRows(db, Fetch(db, order)[..n], answers, now)
  }

  lemma SyncedToAll(db: Db, order: seq<nat>, answers: nat -> Answer, now: Time)
    requires Fetchable(db, order)
    ensures SyncedTo(db, order, |order|, answers, now) == SyncRows(db, Fetch(db, order), answers, now)
  {
    assert Fetch(db, order)[..|order|] == Fetch(db, order);
  }

  /** One more fetched row. */
  lemma SyncedToNext(db: Db, order: seq<nat>, n: nat, answers: nat -> Answer, now: Time)
    requires Fetchable(db, order) && n < |order|
    ensures order[n] in order
    ensures SyncedTo(db, order, n + 1, answers, now)
         == SyncRow(SyncedTo(db, order, n, answers, now), RowOf(db, order[n]), answers(order[n]), now)
  {
    assert order[n] in order;
    assert Fetch(db, order)[..n + 1][..n] == Fetch(db, order)[..n];
  }

  lemma SyncedToNone(db: Db, order: seq<nat>, answers: nat -> Answer, now: Time)
    requires Safe(db) && LiveOrder(db, order) && Fetchable(db, order)
    ensures Progress(db, SyncedTo(db, order, 0, answers, now), DoneJobs(db, order, 0))
  {
  }

  lemma SyncedToProgress(db: Db, order: seq<nat>, n: nat, answers: nat -> Answer, now: Time)
    requires Safe(db) && LiveOrder(db, order) && Fetchable(db, order) && n < |order|
    requires Progress(db, SyncedTo(db, order, n, answers, now), DoneJobs(db, order, n))
    ensures Progress(db, SyncedTo(db, order, n + 1, answers, now), DoneJobs(db, order, n + 1))
  {
    SyncedToNext(db, order, n, answers, now);
    NextJobNotDone(db, order, n, n);
    var before := SyncedTo(db, order, n, answers, now);
    SyncStep(db, before, DoneJobs(db, order, n), order[n], answers(order[n]), now);
    hide Safe, Progress, SyncedTo, SyncRow;
  }

  lemma {:induction false} SyncRowsKeep(db: Db, order: seq<nat>, n: nat, answers: nat -> Answer, now: Time)
    requires Safe(db) && LiveOrder(db, order) && Fetchable(db, order) && n <= |order|
    ensures Progress(db, SyncedTo(db, order, n, answers, now), DoneJobs(db, order, n))
  {
    hide Safe, Progress, SyncedTo, DoneJobs;
    if n == 0 {
      SyncedToNone(db, order, answers, now);
    } else {
      SyncRowsKeep(db, order, n - 1, answers, now);
      SyncedToProgress(db, order, n - 1, answers, now);
    }
  }

  lemma SyncAllKeeps(db: Db, order: seq<nat>, answers: nat -> Answer, now: Time)
    requires Inv(db) && Enumerates(order, LiveIds(db))
    ensures forall a | a in order :: a < |db.attempts| && db.attempts[a].jobId < |db.jobs|
    ensures var post := SyncRows(db, Fetch(db, order), answers, now);
            Inv(post) && Evolves(db, post) && db.events <= post.events
  {
    FetchedAreLive(db, order);
    SyncRowsKeep(db, order, |order|, answers, now);
    SyncedToAll(db, order, answers, now);
    NumbersKept(db, SyncRows(db, Fetch(db, order), answers, now));
  }

  // ---- timeouts ----

  lemma TimeoutRowKeeps(db: Db, row: TimedRow, now: Time)
    requires Safe(db) && row.attemptId < |db.attempts| && Live(db.attempts[row.attemptId])
    requires row.jobId == db.attempts[row.attemptId].jobId
    requires db.jobs[row.jobId].status == RUNNING
    ensures var post := TimeoutRow(db, row, now); Kept(db, post, row.jobId) && Logged(db, post)
  {
    LiveIsSole(db, row.attemptId);
    EventLogged(db, row.jobId, Entered(TIMED_OUT), Some(row.attemptId));
    RewriteKeeps(db, TimeoutRow(db, row, now), row.attemptId, row.jobId);
  }

  lemma TimedAreLive(db: Db, order: seq<nat>)
    requires Safe(db) && Enumerates(order, TimeoutIds(db))
    ensures LiveOrder(db, order)
    ensures forall a | a in order :: a in TimeoutIds(db) && a < |db.attempts| && Live(db.attempts[a])
  {
  }

  lemma TimeoutStep(db: Db, before: Db, done: set<nat>, a: nat, now: Time)
    requires Safe(db) && Progress(db, before, done)
    requires a in TimeoutIds(db) && db.attempts[a].jobId !in done
    ensures var j := db.attempts[a].jobId;
            Progress(db, TimeoutRow(before, TimedRowOf(db, a), now), done + {j})
  {
    var j := db.attempts[a].jobId;
    var row := TimedRowOf(db, a);
    assert AttemptOk(db.attempts[a]);
    TimeoutRowKeeps(before, row, now);
    ProgressStep(db, before, TimeoutRow(before, row, now), done, j);
  }

  ghost function TimedTo(db: Db, order: seq<nat>, n: nat, now: Time): Db
    requires (forall a | a in order :: a in TimeoutIds(db)) && n <= |order|
  {
    TimeoutRows(db, FetchTimed(db, order)[..n], now)
  }

  lemma TimedToNext(db: Db, order: seq<nat>, n: nat, now: Time)
    requires (forall a | a in order :: a in TimeoutIds(db)) && n < |order|
    ensures order[n] in order
    ensures TimedTo(db, order, n + 1, now) == TimeoutRow(TimedTo(db, order, n, now), TimedRowOf(db, order[n]), now)
  {
    assert order[n] in order;
    assert FetchTimed(db, order)[..n + 1][..n] == FetchTimed(db, order)[..n];
  }

  lemma TimedToProgress(db: Db, order: seq<nat>, n: nat, now: Time)
    requires Safe(db) && LiveOrder(db, order) && (forall a | a in order :: a in TimeoutIds(db)) && n < |order|
    requires Progress(db, TimedTo(db, order, n, now), DoneJobs(db, order, n))
    ensures Progress(db, TimedTo(db, order, n + 1, now), DoneJobs(db, order, n + 1))
  {
    TimedToNext(db, order, n, now);
    NextJobNotDone(db, order, n, n);
    TimeoutStep(db, TimedTo(db, order, n, now), DoneJobs(db, order, n), order[n], now);
    hide Safe, Progress, TimedTo, TimeoutRow;
  }

  lemma TimedToNone(db: Db, order: seq<nat>, now: Time)
    requires Safe(db) && LiveOrder(db, order) && forall a | a in order :: a in TimeoutIds(db)
    ensures Progress(db, TimedTo(db, order, 0, now), DoneJobs(db, order, 0))
  {
  }

  lemma {:induction false} TimeoutRowsKeep(db: Db, order: seq<nat>, n: nat, now: Time)
    requires Safe(db) && LiveOrder(db, order) && (forall a | a in order :: a in TimeoutIds(db)) && n <= |order|
    ensures Progress(db, TimedTo(db, order, n, now), DoneJobs(db, order, n))
  {
    hide Safe, Progress, TimedTo, DoneJobs;
    if n == 0 {
      TimedToNone(db, order, now);
    } else {
      TimeoutRowsKeep(db, order, n - 1, now);
      TimedToProgress(db, order, n - 1, now);
    }
  }

  lemma CheckTimeoutsKeeps(db: Db, order: seq<nat>, now: Time)
    requires Inv(db) && Enumerates(order, TimeoutIds(db))
    ensures var post := TimeoutRows(db, FetchTimed(db, order), now);
            Inv(post) && Evolves(db, post) && db.events <= post.events
  {
    TimedAreLive(db, order);
    var rows := FetchTimed(db, order);
    assert rows[..|order|] == rows;
    TimeoutRowsKeep(db, order, |order|, now);
    NumbersKept(db, TimeoutRows(db, rows, now));
  }

  // ---- recovery ----

  lemma RecoverAttemptKeeps(db: Db, j: nat, a: nat, answer: Answer, now: Time)
    requires Safe(db) && j < |db.jobs| && db.jobs[j].status in {QUEUED, RUNNING, CANCELLING}
    requires a < |db.attempts| && db.attempts[a].jobId == j && Live(db.attempts[a])
    ensures var post := RecoverAttempt(db, j, db.jobs[j].status, a, answer, now);
            Kept(db, post, j) && Logged(db, post)
  {
    var post := RecoverAttempt(db, j, db.jobs[j].status, a, answer, now);
    LiveIsSole(db, a);
    if answer.Unreachable? {
      EventLogged(db, j, Entered(LOST), Some(a));
      assert post.events == MarkLost(db, a, j, now).events;
      RewriteKeeps(db, post, a, j);
    } else if db.jobs[j].status != CANCELLING
           && MapRay(answer.status) in {Some(SUCCEEDED), Some(FAILED), Some(CANCELLED)} {
      FinishKeeps(db, a, j, MapRay(answer.status).value, false, now);
    } else {
      RewriteKeeps(db, post, a, j);
    }
  }

  lemma RecoverJobKeeps(db: Db, j: nat, answers: nat -> Answer, now: Time)
    requires Safe(db) && j < |db.jobs| && db.jobs[j].status in {QUEUED, RUNNING, CANCELLING}
    ensures var post := RecoverJob(db, j, db.jobs[j].status, answers, now);
            Kept(db, post, j) && Logged(db, post)
  {
    var found := LatestOpen(db.attempts, j);
    if found.Some? && db.attempts[found.value].ray.Some? {
      RecoverAttemptKeeps(db, j, found.value, answers(found.value), now);
    } else {
      JobAloneKeeps(db, RecoverJob(db, j, db.jobs[j].status, answers, now), j);
    }
  }

  lemma NotDoneYet(order: seq<nat>, ids: set<nat>, n: nat)
    requires Enumerates(order, ids) && 0 < n <= |order|
    ensures order[n - 1] in ids && order[n - 1] !in Done(order, n - 1)
  {
    DoneIsPrefix(order, n - 1);
    assert order[n - 1] in order;
  }

  lemma OpenStatus(db: Db, j: nat)
    requires j in RecoverIds(db)
    ensures j < |db.jobs| && db.jobs[j].status in {QUEUED, RUNNING, CANCELLING}
  {
  }

  lemma StillOpen(db: Db, before: Db, done: set<nat>, j: nat)
    requires OnlyJobs(db, before, done) && j in RecoverIds(db) && j !in done
    ensures j in RecoverIds(before) && before.jobs[j] == db.jobs[j]
  {
  }

  lemma {:induction false} RecoverJobsKeep(db: Db, order: seq<nat>, n: nat, answers: nat -> Answer, now: Time)
    requires Safe(db) && Enumerates(order, RecoverIds(db)) && n <= |order|
    ensures forall j | j in order :: j < |db.jobs|
    ensures Progress(db, RecoverJobs(db, FetchJobs(db, order)[..n], answers, now), Done(order, n))
  {
    forall j | j in order ensures j < |db.jobs| { assert j in RecoverIds(db); }
    var rows := FetchJobs(db, order);
    if n > 0 {
      var j := order[n - 1];
      assert rows[..n][..n - 1] == rows[..n - 1];
      RecoverJobsKeep(db, order, n - 1, answers, now);
      NotDoneYet(order, RecoverIds(db), n);
      var before := RecoverJobs(db, rows[..n - 1], answers, now);
      hide RecoverJob, Enumerates, RecoverIds;
      StillOpen(db, before, Done(order, n - 1), j);
      OpenStatus(before, j);
      RecoverJobKeeps(before, j, answers, now);
      ProgressStep(db, before, RecoverJob(before, j, db.jobs[j].status, answers, now), Done(order, n - 1), j);
    }
  }

  lemma RecoverKeeps(db: Db, order: seq<nat>, answers: nat -> Answer, now: Time)
    requires Inv(db) && Enumerates(order, RecoverIds(db))
    ensures forall j | j in order :: j < |db.jobs|
    ensures var post := RecoverJobs(db, FetchJobs(db, order), answers, now);
            Inv(post) && Evolves(db, post) && db.events <= post.events
  {
    RecoverJobsKeep(db, order, |order|, answers, now);
    var rows := FetchJobs(db, order);
    assert rows[..|order|] == rows;
    NumbersKept(db, RecoverJobs(db, rows, answers, now));
  }
}
