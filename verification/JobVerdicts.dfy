/**
 What the background writer decides about every row, answer by answer: the rows and events after a sync, a
 timeout check and a recovery, stated without the functions that compute them.
 */
module JobVerdicts {
  import opened Wrappers
  import opened JobStateMachine
  import opened JobTables
  import opened JobSyncService
  import opened JobSafety
  import opened JobSyncSafety
  import opened JobRecovery

  // ---- one job: its row, its attempts and its events ----

  ghost predicate SameView(db: Db, post: Db, j: nat) {
    && j < |db.jobs| && |post.jobs| == |db.jobs| && |post.attempts| == |db.attempts|
    && post.jobs[j] == db.jobs[j] && History(post.events, j) == History(db.events, j)
    && forall a | 0 <= a < |db.attempts| && (db.attempts[a].jobId == j || post.attempts[a].jobId == j) ::
         post.attempts[a] == db.attempts[a]
  }

  /** Job `j` got a new row, its attempt `a` too, and these events were added; its other attempts are as they were. */
  ghost predicate Changed(db: Db, post: Db, j: nat, job: Job, a: nat, attempt: Attempt,
                          added: seq<(Kind, Option<nat>)>) {
    && j < |db.jobs| && |post.jobs| == |db.jobs| && |post.attempts| == |db.attempts|
    && post.jobs[j] == job && History(post.events, j) == History(db.events, j) + added
    && a < |db.attempts| && db.attempts[a].jobId == j && post.attempts[a] == attempt
    && forall b | 0 <= b < |db.attempts| && b != a && (db.attempts[b].jobId == j || post.attempts[b].jobId == j) ::
         post.attempts[b] == db.attempts[b]
  }

  lemma ChangedStays(db: Db, before: Db, post: Db, j: nat, job: Job, a: nat, attempt: Attempt,
                     added: seq<(Kind, Option<nat>)>)
    requires Changed(db, before, j, job, a, attempt, added) && attempt.jobId == j && SameView(before, post, j)
    ensures Changed(db, post, j, job, a, attempt, added)
  {
  }

  lemma ChangedFrom(db: Db, before: Db, post: Db, j: nat, job: Job, a: nat, attempt: Attempt,
                    added: seq<(Kind, Option<nat>)>)
    requires SameView(db, before, j) && Changed(before, post, j, job, a, attempt, added)
    ensures Changed(db, post, j, job, a, attempt, added)
  {
  }

  lemma SameViewTwice(db: Db, before: Db, post: Db, j: nat)
    requires SameView(db, before, j) && SameView(before, post, j)
    ensures SameView(db, post, j)
  {
  }

  lemma OtherView(db: Db, post: Db, j: nat, other: nat)
    requires OnlyJob(db, post, other) && j < |db.jobs| && j != other
    requires History(post.events, j) == History(db.events, j)
    ensures SameView(db, post, j)
  {
  }

  lemma HistoryAfter(db: Db, j: nat, kind: Kind, attemptId: Option<nat>, i: nat)
    ensures History(WithEvent(db, j, kind, attemptId).events, i)
         == History(db.events, i) + if i == j then [(kind, attemptId)] else []
  {
    var post := WithEvent(db, j, kind, attemptId);
    assert post.events[..|db.events|] == db.events;
  }

  // ---- sync ----

  function AttemptAfterSync(was: Attempt, answer: Answer, now: Time): Attempt {
    match answer
    case Unreachable => was.(status := LOST, finishedAt := Some(now))
    case Reports(RaySucceeded, _) => was.(status := SUCCEEDED, finishedAt := Some(now))
    case Reports(RayFailed, _) => was.(status := FAILED, finishedAt := Some(now))
    case Reports(RayStopped, _) => was.(status := CANCELLED, finishedAt := Some(now))
    case Reports(RayRunning, _) =>
      was.(status := RUNNING, startedAt := if was.startedAt.Some? then was.startedAt else Some(now))
    case Reports(RayPending, _) => was.(status := QUEUED)
    case Reports(RayQueued, _) => was.(status := QUEUED)
    case Reports(RayOther(_), _) => was
  }

  /** A job that is being cancelled is left to the cancel. */
  function JobAfterSync(was: Job, answer: Answer, now: Time): Job {
    match answer
    case Unreachable => if was.status in {QUEUED, RUNNING} then was.(status := LOST, finishedAt := Some(now)) else was
    case Reports(RaySucceeded, _) =>
      if was.status in {QUEUED, RUNNING} then was.(status := SUCCEEDED, finishedAt := Some(now)) else was
    case Reports(RayFailed, _) =>
      if was.status in {QUEUED, RUNNING} then was.(status := FAILED, finishedAt := Some(now)) else was
    case Reports(RayStopped, _) => was
    case Reports(RayRunning, _) => if was.status == QUEUED then was.(status := RUNNING) else was
    case Reports(RayPending, _) => if was.status == RUNNING then was.(status := QUEUED) else was
    case Reports(RayQueued, _) => if was.status == RUNNING then was.(status := QUEUED) else was
    case Reports(RayOther(_), _) => was
  }

  function EventsOfSync(a: nat, answer: Answer): seq<(Kind, Option<nat>)> {
    match answer
    case Unreachable => [(Entered(LOST), Some(a))]
    case Reports(RaySucceeded, hasResult) =>
      (if hasResult then [(ArtifactCreated, Some(a))] else []) + [(Entered(SUCCEEDED), None)]
    case Reports(RayFailed, _) => [(Entered(FAILED), None)]
    case Reports(_, _) => []
  }

  ghost predicate SyncVerdict(db: Db, post: Db, a: nat, answer: Answer, now: Time) {
    && a < |db.attempts| && db.attempts[a].jobId < |db.jobs|
    && Changed(db, post, db.attempts[a].jobId, JobAfterSync(db.jobs[db.attempts[a].jobId], answer, now),
               a, AttemptAfterSync(db.attempts[a], answer, now), EventsOfSync(a, answer))
  }

  lemma CollectHistory(db: Db, a: nat, j: nat, hasResult: bool, i: nat)
    ensures History(CollectResult(db, a, j, hasResult).events, i)
         == History(db.events, i) + if i == j && hasResult then [(ArtifactCreated, Some(a))] else []
  {
    HistoryAfter(db, j, ArtifactCreated, Some(a), i);
  }

  lemma FinalizeHistory(db: Db, j: nat, to: Status, now: Time, i: nat)
    requires to in {SUCCEEDED, FAILED}
    ensures History(FinalizeJob(db, j, to, now).events, i)
         == History(db.events, i) + if i == j then [(Entered(to), None)] else []
  {
    HistoryAfter(CloseOpenJob(db, j, to, now), j, Entered(to), None, i);
  }

  lemma StatusHistory(db: Db, a: nat, to: Status, now: Time)
    ensures UpdateAttemptStatus(db, a, to, now).events == db.events
  {
  }

  lemma LostHistory(db: Db, row: Row, now: Time, i: nat)
    ensures History(SyncRow(db, row, Unreachable, now).events, i)
         == History(db.events, i) + if i == row.attempt.jobId then [(Entered(LOST), Some(row.attemptId))] else []
  {
    HistoryAfter(db, row.attempt.jobId, Entered(LOST), Some(row.attemptId), i);
  }

  /** How a final answer is written. */
  lemma FinalIs(db: Db, row: Row, to: Status, hasResult: bool, now: Time)
    requires to in {SUCCEEDED, FAILED, CANCELLED}
    ensures var a, j := row.attemptId, row.attempt.jobId;
            var written := if to != row.attempt.status then UpdateAttemptStatus(db, a, to, now) else db;
            SyncReported(db, row, to, hasResult, now) ==
              FinalizeJob(CollectResult(written, a, j, to == SUCCEEDED && hasResult), j, to, now)
  {
  }

  lemma FinalHistory(db: Db, row: Row, to: Status, hasResult: bool, now: Time, i: nat)
    requires to in {SUCCEEDED, FAILED}
    ensures (History(SyncReported(db, row, to, hasResult, now).events, i) ==
             History(db.events, i)
             + (if i == row.attempt.jobId && to == SUCCEEDED && hasResult
                then [(ArtifactCreated, Some(row.attemptId))] else [])
             + (if i == row.attempt.jobId then [(Entered(to), None)] else []))
  {
    var a, j := row.attemptId, row.attempt.jobId;
    var written := if to != row.attempt.status then UpdateAttemptStatus(db, a, to, now) else db;
    FinalIs(db, row, to, hasResult, now);
    StatusHistory(db, a, to, now);
    CollectHistory(written, a, j, to == SUCCEEDED && hasResult, i);
    FinalizeHistory(CollectResult(written, a, j, to == SUCCEEDED && hasResult), j, to, now, i);
    hide SyncReported, UpdateAttemptStatus, CollectResult, FinalizeJob, History;
  }

  lemma StoppedHistory(db: Db, row: Row, hasResult: bool, now: Time)
    ensures SyncReported(db, row, CANCELLED, hasResult, now).events == db.events
  {
  }

  lemma OngoingHistory(db: Db, row: Row, answer: Answer, now: Time)
    requires answer.Reports? && answer.status !in {RaySucceeded, RayFailed, RayStopped}
    ensures SyncRow(db, row, answer, now).events == db.events
  {
  }

  lemma FinalRow(db: Db, row: Row, hasResult: bool, now: Time)
    ensures SyncRow(db, row, Reports(RaySucceeded, hasResult), now) == SyncReported(db, row, SUCCEEDED, hasResult, now)
    ensures SyncRow(db, row, Reports(RayFailed, hasResult), now) == SyncReported(db, row, FAILED, hasResult, now)
    ensures SyncRow(db, row, Reports(RayStopped, hasResult), now) == SyncReported(db, row, CANCELLED, hasResult, now)
  {
  }

  lemma SyncRowHistory(db: Db, row: Row, answer: Answer, now: Time, i: nat)
    ensures History(SyncRow(db, row, answer, now).events, i)
         == History(db.events, i) + if i == row.attempt.jobId then EventsOfSync(row.attemptId, answer) else []
  {
    hide SyncRow, SyncReported, History;
    match answer {
      case Unreachable => LostHistory(db, row, now, i);
      case Reports(report, hasResult) =>
        FinalRow(db, row, hasResult, now);
        if report == RaySucceeded {
          FinalHistory(db, row, SUCCEEDED, hasResult, now, i);
        } else if report == RayFailed {
          FinalHistory(db, row, FAILED, hasResult, now, i);
        } else if report == RayStopped {
          StoppedHistory(db, row, hasResult, now);
        } else {
          OngoingHistory(db, row, answer, now);
        }
    }
  }

  /** The rows that syncing one fetched row writes. */
  lemma SyncRowRows(db: Db, row: Row, answer: Answer, now: Time)
    requires Safe(db) && row.attemptId < |db.attempts| && db.attempts[row.attemptId] == row.attempt
    requires Live(row.attempt) && row.jobStatus == db.jobs[row.attempt.jobId].status
    ensures var j, post := row.attempt.jobId, SyncRow(db, row, answer, now);
            && post.jobs == db.jobs[j := JobAfterSync(db.jobs[j], answer, now)]
            && post.attempts == db.attempts[row.attemptId := AttemptAfterSync(row.attempt, answer, now)]
  {
    var j := row.attempt.jobId;
    assert JobOk(db.jobs[j]);
    assert db.jobs[j := db.jobs[j]] == db.jobs && db.attempts[row.attemptId := row.attempt] == db.attempts;
    match answer {
      case Unreachable =>
      case Reports(RaySucceeded, hasResult) => FinalRows(db, row, SUCCEEDED, hasResult, now);
      case Reports(RayFailed, hasResult) => FinalRows(db, row, FAILED, hasResult, now);
      case Reports(RayStopped, hasResult) => FinalRows(db, row, CANCELLED, hasResult, now);
      case Reports(_, _) =>
    }
  }

  lemma FinalRows(db: Db, row: Row, to: Status, hasResult: bool, now: Time)
    requires Safe(db) && row.attemptId < |db.attempts| && db.attempts[row.attemptId] == row.attempt
    requires Live(row.attempt) && to in {SUCCEEDED, FAILED, CANCELLED}
    ensures var j, post := row.attempt.jobId, SyncReported(db, row, to, hasResult, now);
            && post.attempts == db.attempts[row.attemptId := row.attempt.(status := to, finishedAt := Some(now))]
            && post.jobs == if to != CANCELLED && Open(db.jobs[j].status)
                            then db.jobs[j := db.jobs[j].(status := to, finishedAt := Some(now))] else db.jobs
  {
    var j := row.attempt.jobId;
    var moved := UpdateAttemptStatus(db, row.attemptId, to, now);
    var collected := if to == SUCCEEDED then CollectResult(moved, row.attemptId, j, hasResult) else moved;
    assert to != row.attempt.status;
    assert collected.jobs == db.jobs && collected.attempts == moved.attempts;
    assert SyncReported(db, row, to, hasResult, now) == FinalizeJob(collected, j, to, now);
  }

  lemma SyncRowOthers(db: Db, row: Row, answer: Answer, now: Time, i: nat)
    requires Safe(db) && row.attemptId < |db.attempts| && db.attempts[row.attemptId] == row.attempt
    requires Live(row.attempt) && row.jobStatus == db.jobs[row.attempt.jobId].status
    requires i < |db.jobs| && i != row.attempt.jobId
    ensures SameView(db, SyncRow(db, row, answer, now), i)
  {
    SyncRowRows(db, row, answer, now);
    hide SyncRow, Safe, JobAfterSync;
    SyncRowHistory(db, row, answer, now, i);
    assert AttemptAfterSync(row.attempt, answer, now).jobId == row.attempt.jobId;
  }

  lemma SyncRowVerdict(db: Db, row: Row, answer: Answer, now: Time)
    requires Safe(db) && row.attemptId < |db.attempts| && db.attempts[row.attemptId] == row.attempt
    requires Live(row.attempt) && row.jobStatus == db.jobs[row.attempt.jobId].status
    ensures var post := SyncRow(db, row, answer, now);
            && SyncVerdict(db, post, row.attemptId, answer, now)
            && forall i: nat | i < |db.jobs| && i != row.attempt.jobId :: SameView(db, post, i)
  {
    var j, post := row.attempt.jobId, SyncRow(db, row, answer, now);
    SyncRowRows(db, row, answer, now);
    SyncRowHistory(db, row, answer, now, j);
    hide SyncRow, SameView;
    forall i: nat | i < |db.jobs| && i != j ensures SameView(db, post, i) {
      SyncRowOthers(db, row, answer, now, i);
    }
  }

  // ---- the whole sync ----

  ghost predicate SyncedUpTo(db: Db, post: Db, order: seq<nat>, n: nat, answers: nat -> Answer, now: Time)
    requires LiveOrder(db, order)
  {
    && n <= |order|
    && (forall i | 0 <= i < n :: SyncVerdict(db, post, order[i], answers(order[i]), now))
    && (forall j: nat | j < |db.jobs| && j !in DoneJobs(db, order, n) :: SameView(db, post, j))
  }

  lemma VerdictStays(db: Db, before: Db, post: Db, a: nat, answer: Answer, now: Time)
    requires SyncVerdict(db, before, a, answer, now) && SameView(before, post, db.attempts[a].jobId)
    ensures SyncVerdict(db, post, a, answer, now)
  {
  }

  lemma VerdictFrom(db: Db, before: Db, post: Db, a: nat, answer: Answer, now: Time)
    requires a < |db.attempts| && SameView(db, before, db.attempts[a].jobId)
    requires a < |before.attempts| && SyncVerdict(before, post, a, answer, now)
    ensures SyncVerdict(db, post, a, answer, now)
  {
  }

  /** A write to one live attempt and its job keeps what was decided about the others. */
  lemma DecidedStays(db: Db, before: Db, post: Db, order: seq<nat>, n: nat, answers: nat -> Answer, now: Time)
    requires Safe(db) && LiveOrder(db, order) && n < |order| && order[n] < |db.attempts|
    requires SyncedUpTo(db, before, order, n, answers, now) && |before.jobs| == |db.jobs|
    requires forall i: nat | i < |before.jobs| && i != db.attempts[order[n]].jobId :: SameView(before, post, i)
    ensures forall i | 0 <= i < n :: SyncVerdict(db, post, order[i], answers(order[i]), now)
    ensures forall k: nat | k < |db.jobs| && k !in DoneJobs(db, order, n) && k != db.attempts[order[n]].jobId ::
              SameView(db, post, k)
  {
    forall i | 0 <= i < n ensures SyncVerdict(db, post, order[i], answers(order[i]), now) {
      assert order[i] in order && order[n] in order;
      LiveJobsDiffer(db, order[i], order[n]);
      LiveJobExists(db, order[i]);
      VerdictStays(db, before, post, order[i], answers(order[i]), now);
    }
    forall k: nat | k < |db.jobs| && k !in DoneJobs(db, order, n) && k != db.attempts[order[n]].jobId
      ensures SameView(db, post, k)
    {
      SameViewTwice(db, before, post, k);
    }
    hide SyncVerdict, SameView, Safe;
  }

  lemma SyncedOneMore(db: Db, before: Db, order: seq<nat>, n: nat, answers: nat -> Answer, now: Time)
    requires Safe(db) && Safe(before) && LiveOrder(db, order) && n < |order|
    requires order[n] < |db.attempts| && db.attempts[order[n]].jobId < |db.jobs|
    requires db.attempts[order[n]].jobId !in DoneJobs(db, order, n) && SyncedUpTo(db, before, order, n, answers, now)
    ensures SyncedUpTo(db, SyncRow(before, RowOf(db, order[n]), answers(order[n]), now), order, n + 1, answers, now)
  {
    var a := order[n];
    var post := SyncRow(before, RowOf(db, a), answers(a), now);
    assert a in order && SameView(db, before, db.attempts[a].jobId);
    SyncRowVerdict(before, RowOf(db, a), answers(a), now);
    VerdictFrom(db, before, post, a, answers(a), now);
    DecidedStays(db, before, post, order, n, answers, now);
    hide SyncRow, Safe, SyncVerdict, SameView, SyncedUpTo;
    DecidedNext(db, post, order, n, answers, now);
  }

  lemma DecidedNext(db: Db, post: Db, order: seq<nat>, n: nat, answers: nat -> Answer, now: Time)
    requires LiveOrder(db, order) && n < |order| && order[n] < |db.attempts|
    requires forall i | 0 <= i < n :: SyncVerdict(db, post, order[i], answers(order[i]), now)
    requires SyncVerdict(db, post, order[n], answers(order[n]), now)
    requires forall k: nat | k < |db.jobs| && k !in DoneJobs(db, order, n) && k != db.attempts[order[n]].jobId ::
              SameView(db, post, k)
    ensures SyncedUpTo(db, post, order, n + 1, answers, now)
  {
    hide SyncVerdict, SameView;
  }

  lemma LiveJobExists(db: Db, a: nat)
    requires Safe(db) && a < |db.attempts|
    ensures db.attempts[a].jobId < |db.jobs|
  {
  }

  lemma SyncedToDecided(db: Db, order: seq<nat>, n: nat, answers: nat -> Answer, now: Time)
    requires Safe(db) && LiveOrder(db, order) && Fetchable(db, order) && n < |order|
    requires SyncedUpTo(db, SyncedTo(db, order, n, answers, now), order, n, answers, now)
    ensures SyncedUpTo(db, SyncedTo(db, order, n + 1, answers, now), order, n + 1, answers, now)
  {
    SyncedToNext(db, order, n, answers, now);
    NextJobNotDone(db, order, n, n);
    SafeSoFar(db, order, n, answers, now);
    SyncedOneMore(db, SyncedTo(db, order, n, answers, now), order, n, answers, now);
    hide Safe, SyncedTo, SyncRow, SyncedUpTo;
  }

  lemma NoneDecided(db: Db, order: seq<nat>, answers: nat -> Answer, now: Time)
    requires LiveOrder(db, order) && Fetchable(db, order)
    ensures SyncedUpTo(db, SyncedTo(db, order, 0, answers, now), order, 0, answers, now)
  {
  }

  lemma {:induction false} RowsSynced(db: Db, order: seq<nat>, n: nat, answers: nat -> Answer, now: Time)
    requires Safe(db) && LiveOrder(db, order) && Fetchable(db, order) && n <= |order|
    ensures SyncedUpTo(db, SyncedTo(db, order, n, answers, now), order, n, answers, now)
  {
    hide Safe, LiveOrder, Fetchable, SyncedTo, SyncedUpTo;
    if n == 0 {
      NoneDecided(db, order, answers, now);
    } else {
      RowsSynced(db, order, n - 1, answers, now);
      SyncedToDecided(db, order, n - 1, answers, now);
    }
  }

  lemma SafeSoFar(db: Db, order: seq<nat>, n: nat, answers: nat -> Answer, now: Time)
    requires Safe(db) && LiveOrder(db, order) && Fetchable(db, order) && n <= |order|
    ensures Safe(SyncedTo(db, order, n, answers, now))
  {
    SyncRowsKeep(db, order, n, answers, now);
  }

  /** The tables after a sync that fetched the attempts in this order. */
  ghost function SyncedAll(db: Db, order: seq<nat>, answers: nat -> Answer, now: Time): Db
    requires Linked(db) && Enumerates(order, LiveIds(db))
  {
    assert forall a | a in order :: a in LiveIds(db);
    SyncRows(db, Fetch(db, order), answers, now)
  }

  lemma {:induction false} DoneHasLive(db: Db, order: seq<nat>, n: nat, j: nat)
    requires LiveOrder(db, order) && n <= |order| && j in DoneJobs(db, order, n)
    ensures HasLive(db, j)
  {
    assert order[n - 1] in order;
    if db.attempts[order[n - 1]].jobId != j { DoneHasLive(db, order, n - 1, j); }
  }

  /**
   After a sync, whatever the order: each live attempt and its job have become what the answer about the attempt
   says, with the events it calls for; every job without a live attempt is as it was, with all its attempts.
   */
  lemma SyncOutcome(db: Db, order: seq<nat>, answers: nat -> Answer, now: Time)
    requires Safe(db) && Enumerates(order, LiveIds(db))
    ensures var post := SyncedAll(db, order, answers, now);
            && Safe(post)
            && (forall a | a in LiveIds(db) :: SyncVerdict(db, post, a, answers(a), now))
            && (forall j: nat | j < |db.jobs| && !HasLive(db, j) :: SameView(db, post, j))
  {
    FetchedAreLive(db, order);
    var post := SyncedAll(db, order, answers, now);
    SyncedToAll(db, order, answers, now);
    RowsSynced(db, order, |order|, answers, now);
    SafeSoFar(db, order, |order|, answers, now);
    forall a | a in LiveIds(db) ensures SyncVerdict(db, post, a, answers(a), now) {
      assert a in order;
      var i :| 0 <= i < |order| && order[i] == a;
    }
    forall j: nat | j < |db.jobs| && !HasLive(db, j) ensures SameView(db, post, j) {
      if j in DoneJobs(db, order, |order|) { DoneHasLive(db, order, |order|, j); }
    }
  }

  /** A move that the transition table has, or none at all. */
  predicate InTable(was: Status, now: Status) {
    now == was || CanTransition(was, now)
  }

  /** Taking a running job back to QUEUED, or ending one that is still held for QUEUED as SUCCEEDED or LOST. */
  predicate OffTable(was: Status, answer: Answer) {
    || (was == RUNNING && answer.Reports? && answer.status in {RayPending, RayQueued})
    || (was == QUEUED && (answer.Unreachable? || answer.status == RaySucceeded))
  }

  lemma JobInTable(was: Job, answer: Answer, now: Time)
    ensures InTable(was.status, JobAfterSync(was, answer, now).status) <==> !OffTable(was.status, answer)
  {
  }

  /** A sync moves a job along the transition table except in exactly these cases. */
  lemma SyncFollowsTableExactly(db: Db, order: seq<nat>, answers: nat -> Answer, now: Time, a: nat)
    requires Safe(db) && Enumerates(order, LiveIds(db)) && a in LiveIds(db)
    ensures var j, post := db.attempts[a].jobId, SyncedAll(db, order, answers, now);
            && j < |db.jobs| && j < |post.jobs|
            && (InTable(db.jobs[j].status, post.jobs[j].status) <==> !OffTable(db.jobs[j].status, answers(a)))
  {
    hide JobAfterSync, AttemptAfterSync, InTable, OffTable;
    SyncOutcome(db, order, answers, now);
    assert SyncVerdict(db, SyncedAll(db, order, answers, now), a, answers(a), now);
    JobInTable(db.jobs[db.attempts[a].jobId], answers(a), now);
  }

  // ---- timeouts ----

  /** A running attempt that has run longer than its job allows is closed with its job; otherwise both stay. */
  ghost predicate TimeoutVerdict(db: Db, post: Db, a: nat, now: Time) {
    && a in TimeoutIds(db)
    && var attempt, j := db.attempts[a], db.attempts[a].jobId;
       if now - attempt.startedAt.value > db.jobs[j].timeout
       then Changed(db, post, j, db.jobs[j].(status := TIMED_OUT, finishedAt := Some(now)),
                    a, attempt.(status := TIMED_OUT, finishedAt := Some(now)), [(Entered(TIMED_OUT), Some(a))])
       else SameView(db, post, j)
  }

  /** Exactly the running attempts of running jobs are looked at. */
  lemma TimeoutIdsExactly(db: Db, a: nat)
    requires Safe(db)
    ensures a in TimeoutIds(db) <==>
            a < |db.attempts| && db.attempts[a].status == RUNNING && db.jobs[db.attempts[a].jobId].status == RUNNING
  {
    if a < |db.attempts| { assert AttemptOk(db.attempts[a]); }
  }

  predicate Over(row: TimedRow, now: Time) {
    now - row.startedAt > row.timeout
  }

  lemma TimeoutRowRows(db: Db, row: TimedRow, now: Time)
    requires row.jobId < |db.jobs| && row.attemptId < |db.attempts|
    ensures var j, a, post := row.jobId, row.attemptId, TimeoutRow(db, row, now);
            if Over(row, now)
            then
              && post.jobs == db.jobs[j := db.jobs[j].(status := TIMED_OUT, finishedAt := Some(now))]
              && post.attempts == db.attempts[a := db.attempts[a].(status := TIMED_OUT, finishedAt := Some(now))]
            else post.jobs == db.jobs && post.attempts == db.attempts
  {
    hide EventKeys;
  }

  lemma TimeoutRowHistory(db: Db, row: TimedRow, now: Time, i: nat)
    ensures History(TimeoutRow(db, row, now).events, i)
         == History(db.events, i)
            + if Over(row, now) && i == row.jobId then [(Entered(TIMED_OUT), Some(row.attemptId))] else []
  {
    hide EventKeys, History;
    HistoryAfter(CloseJob(CloseAttempt(db, row.attemptId, TIMED_OUT, now), row.jobId, TIMED_OUT, now),
                 row.jobId, Entered(TIMED_OUT), Some(row.attemptId), i);
  }

  lemma TimeoutRowView(db: Db, before: Db, a: nat, now: Time, i: nat)
    requires a in TimeoutIds(db) && SameView(db, before, db.attempts[a].jobId) && i < |db.jobs|
    ensures var post := TimeoutRow(before, TimedRowOf(db, a), now);
            if i == db.attempts[a].jobId then TimeoutVerdict(db, post, a, now) else SameView(before, post, i)
  {
    hide TimeoutRow, History;
    TimeoutRowRows(before, TimedRowOf(db, a), now);
    TimeoutRowHistory(before, TimedRowOf(db, a), now, i);
  }

  /** What is known about the job of the i-th fetched row after n rows. */
  lemma {:induction false} TimedView(db: Db, order: seq<nat>, n: nat, now: Time, i: nat)
    requires Safe(db) && LiveOrder(db, order) && (forall a | a in order :: a in TimeoutIds(db))
    requires n <= |order| && i < |order|
    ensures order[i] in order && order[i] in TimeoutIds(db)
    ensures var post := TimedTo(db, order, n, now);
            if i < n then TimeoutVerdict(db, post, order[i], now) else SameView(db, post, db.attempts[order[i]].jobId)
  {
    assert order[i] in order;
    if n > 0 {
      var a, before := order[n - 1], TimedTo(db, order, n - 1, now);
      TimedView(db, order, n - 1, now, i);
      TimedView(db, order, n - 1, now, n - 1);
      TimedToNext(db, order, n - 1, now);
      TimeoutRowView(db, before, a, now, db.attempts[order[i]].jobId);
      TimedViewStep(db, before, TimedTo(db, order, n, now), order, n, now, i);
    }
    hide Safe, LiveOrder, TimeoutVerdict, SameView, TimedTo, TimeoutRow;
  }

  lemma TimedViewStep(db: Db, before: Db, post: Db, order: seq<nat>, n: nat, now: Time, i: nat)
    requires Safe(db) && LiveOrder(db, order) && 0 < n <= |order| && i < |order|
    requires order[i] in TimeoutIds(db) && order[n - 1] in TimeoutIds(db)
    requires var j := db.attempts[order[i]].jobId;
             && (if i < n - 1 then TimeoutVerdict(db, before, order[i], now) else SameView(db, before, j))
             && (if j == db.attempts[order[n - 1]].jobId then TimeoutVerdict(db, post, order[n - 1], now)
                 else SameView(before, post, j))
    ensures if i < n then TimeoutVerdict(db, post, order[i], now)
            else SameView(db, post, db.attempts[order[i]].jobId)
  {
    if i != n - 1 {
      assert order[i] in order && order[n - 1] in order;
      LiveJobsDiffer(db, order[i], order[n - 1]);
    }
  }

  lemma {:induction false} UntimedView(db: Db, order: seq<nat>, n: nat, now: Time, j: nat)
    requires Safe(db) && LiveOrder(db, order) && (forall a | a in order :: a in TimeoutIds(db)) && n <= |order|
    requires j < |db.jobs| && forall a | a in order :: db.attempts[a].jobId != j
    ensures SameView(db, TimedTo(db, order, n, now), j)
  {
    if n > 0 {
      assert order[n - 1] in order;
      UntimedView(db, order, n - 1, now, j);
      TimedView(db, order, n - 1, now, n - 1);
      TimedToNext(db, order, n - 1, now);
      TimeoutRowView(db, TimedTo(db, order, n - 1, now), order[n - 1], now, j);
      SameViewTwice(db, TimedTo(db, order, n - 1, now), TimedTo(db, order, n, now), j);
    }
  }

  /** The tables after a timeout check that fetched the attempts in this order. */
  ghost function TimedAll(db: Db, order: seq<nat>, now: Time): Db
    requires Enumerates(order, TimeoutIds(db))
  {
    TimeoutRows(db, FetchTimed(db, order), now)
  }

  /**
   A timeout check closes exactly the running attempts of running jobs that are over their timeout, each with its
   job; every other attempt and job is as it was.
   */
  lemma TimeoutOutcome(db: Db, order: seq<nat>, now: Time)
    requires Safe(db) && Enumerates(order, TimeoutIds(db))
    ensures var post := TimedAll(db, order, now);
            && (forall a | a in TimeoutIds(db) :: TimeoutVerdict(db, post, a, now))
            && (forall j: nat | j < |db.jobs| && (forall a | a in TimeoutIds(db) :: db.attempts[a].jobId != j) ::
                  SameView(db, post, j))
  {
    TimedAreLive(db, order);
    var rows := FetchTimed(db, order);
    assert rows[..|order|] == rows;
    var post := TimedTo(db, order, |order|, now);
    forall a | a in TimeoutIds(db) ensures TimeoutVerdict(db, post, a, now) {
      assert a in order;
      var i :| 0 <= i < |order| && order[i] == a;
      TimedView(db, order, |order|, now, i);
    }
    forall j: nat | j < |db.jobs| && (forall a | a in TimeoutIds(db) :: db.attempts[a].jobId != j)
      ensures SameView(db, post, j)
    {
      assert forall a | a in order :: a in TimeoutIds(db);
      UntimedView(db, order, |order|, now, j);
    }
  }

  /** Timing out moves every job along the transition table. */
  lemma TimeoutFollowsTable(db: Db, order: seq<nat>, now: Time, j: nat)
    requires Safe(db) && Enumerates(order, TimeoutIds(db)) && j < |db.jobs|
    ensures var post := TimedAll(db, order, now);
            j < |post.jobs| && InTable(db.jobs[j].status, post.jobs[j].status)
  {
    TimeoutOutcome(db, order, now);
    hide TimedAll, Safe;
    if a :| a in TimeoutIds(db) && db.attempts[a].jobId == j {
      assert TimeoutVerdict(db, TimedAll(db, order, now), a, now);
    } else {
      assert SameView(db, TimedAll(db, order, now), j);
    }
  }

  // ---- recovery ----

  function JobAfterRecovery(was: Job, answer: Answer, now: Time): Job {
    match answer
    case Unreachable => was.(status := LOST, finishedAt := Some(now))
    case Reports(report, _) =>
      if was.status == CANCELLING then was.(status := CANCELLED, finishedAt := Some(now))
      else
        match report
        case RaySucceeded => was.(status := SUCCEEDED, finishedAt := Some(now))
        case RayFailed => was.(status := FAILED, finishedAt := Some(now))
        case RayRunning => was.(status := RUNNING)
        case RayStopped => was
        case RayPending => was
        case RayQueued => was
        case RayOther(_) => was
  }

  function AttemptAfterRecovery(was: Attempt, job: Job, answer: Answer, now: Time): Attempt {
    match answer
    case Unreachable => was.(status := LOST, finishedAt := Some(now))
    case Reports(report, _) =>
      if job.status == CANCELLING then was.(status := CANCELLED, finishedAt := Some(now))
      else
        match report
        case RaySucceeded => was.(status := SUCCEEDED, finishedAt := Some(now))
        case RayFailed => was.(status := FAILED, finishedAt := Some(now))
        case RayStopped => was.(status := CANCELLED, finishedAt := Some(now))
        case RayRunning =>
          was.(status := RUNNING, startedAt := if was.startedAt.Some? then was.startedAt else Some(now))
        case RayPending => was
        case RayQueued => was
        case RayOther(_) => was
  }

  function EventsOfRecovery(a: nat, job: Job, answer: Answer): seq<(Kind, Option<nat>)> {
    match answer
    case Unreachable => [(Entered(LOST), Some(a))]
    case Reports(report, _) =>
      if job.status == CANCELLING then []
      else if report == RaySucceeded then [(Entered(SUCCEEDED), None)]
      else if report == RayFailed then [(Entered(FAILED), None)]
      else []
  }

  /** With a live attempt the answer about it decides; without one the job is LOST and its attempts stay. */
  ghost predicate RecoveryVerdict(db: Db, post: Db, j: nat, answers: nat -> Answer, now: Time) {
    && j < |db.jobs|
    && (forall a: nat | a < |db.attempts| && Live(db.attempts[a]) && db.attempts[a].jobId == j ::
          Changed(db, post, j, JobAfterRecovery(db.jobs[j], answers(a), now),
                  a, AttemptAfterRecovery(db.attempts[a], db.jobs[j], answers(a), now),
                  EventsOfRecovery(a, db.jobs[j], answers(a))))
    && (!HasLive(db, j) ==> Lost(db, post, j, now))
  }

  ghost predicate Lost(db: Db, post: Db, j: nat, now: Time) {
    && j < |db.jobs| && |post.jobs| == |db.jobs| && |post.attempts| == |db.attempts|
    && post.jobs[j] == db.jobs[j].(status := LOST, finishedAt := Some(now))
    && History(post.events, j) == History(db.events, j)
    && forall a | 0 <= a < |db.attempts| && (db.attempts[a].jobId == j || post.attempts[a].jobId == j) ::
         post.attempts[a] == db.attempts[a]
  }

  lemma RecoverRows(db: Db, j: nat, a: nat, answer: Answer, now: Time)
    requires Safe(db) && j < |db.jobs| && db.jobs[j].status in {QUEUED, RUNNING, CANCELLING}
    requires a < |db.attempts| && db.attempts[a].jobId == j && Live(db.attempts[a])
    ensures var post := RecoverAttempt(db, j, db.jobs[j].status, a, answer, now);
            && post.jobs == db.jobs[j := JobAfterRecovery(db.jobs[j], answer, now)]
            && post.attempts == db.attempts[a := AttemptAfterRecovery(db.attempts[a], db.jobs[j], answer, now)]
  {
    assert db.jobs[j := db.jobs[j]] == db.jobs && db.attempts[a := db.attempts[a]] == db.attempts;
  }

  lemma RecoverLostHistory(db: Db, j: nat, a: nat, now: Time, i: nat)
    requires j < |db.jobs| && a < |db.attempts|
    ensures History(RecoverAttempt(db, j, db.jobs[j].status, a, Unreachable, now).events, i)
         == History(db.events, i) + if i == j then [(Entered(LOST), Some(a))] else []
  {
    HistoryAfter(db, j, Entered(LOST), Some(a), i);
  }

  lemma RecoverFinalHistory(db: Db, j: nat, a: nat, answer: Answer, to: Status, now: Time, i: nat)
    requires j < |db.jobs| && a < |db.attempts| && answer.Reports? && db.jobs[j].status != CANCELLING
    requires (answer.status == RaySucceeded && to == SUCCEEDED) || (answer.status == RayFailed && to == FAILED)
    ensures History(RecoverAttempt(db, j, db.jobs[j].status, a, answer, now).events, i)
         == History(db.events, i) + if i == j then [(Entered(to), None)] else []
  {
    StatusHistory(db, a, to, now);
    FinalizeHistory(UpdateAttemptStatus(db, a, to, now), j, to, now, i);
    assert RecoverAttempt(db, j, db.jobs[j].status, a, answer, now)
        == FinalizeJob(UpdateAttemptStatus(db, a, to, now), j, to, now);
    hide RecoverAttempt, FinalizeJob, UpdateAttemptStatus, History;
  }

  lemma RecoverSilent(db: Db, j: nat, a: nat, answer: Answer, now: Time)
    requires j < |db.jobs| && a < |db.attempts| && answer.Reports?
    requires db.jobs[j].status == CANCELLING || answer.status !in {RaySucceeded, RayFailed}
    ensures RecoverAttempt(db, j, db.jobs[j].status, a, answer, now).events == db.events
  {
  }

  lemma RecoverHistory(db: Db, j: nat, a: nat, answer: Answer, now: Time, i: nat)
    requires j < |db.jobs| && a < |db.attempts|
    ensures History(RecoverAttempt(db, j, db.jobs[j].status, a, answer, now).events, i)
         == History(db.events, i) + if i == j then EventsOfRecovery(a, db.jobs[j], answer) else []
  {
    hide RecoverAttempt, History;
    if answer.Unreachable? {
      RecoverLostHistory(db, j, a, now, i);
    } else if db.jobs[j].status != CANCELLING && answer.status == RaySucceeded {
      RecoverFinalHistory(db, j, a, answer, SUCCEEDED, now, i);
    } else if db.jobs[j].status != CANCELLING && answer.status == RayFailed {
      RecoverFinalHistory(db, j, a, answer, FAILED, now, i);
    } else {
      RecoverSilent(db, j, a, answer, now);
    }
  }

  lemma RecoverLive(db: Db, j: nat, a: nat, answers: nat -> Answer, now: Time, i: nat)
    requires Safe(db) && j < |db.jobs| && db.jobs[j].status in {QUEUED, RUNNING, CANCELLING}
    requires a < |db.attempts| && db.attempts[a].jobId == j && Live(db.attempts[a]) && i < |db.jobs|
    ensures var post := RecoverJob(db, j, db.jobs[j].status, answers, now);
            if i == j
            then Changed(db, post, j, JobAfterRecovery(db.jobs[j], answers(a), now),
                         a, AttemptAfterRecovery(db.attempts[a], db.jobs[j], answers(a), now),
                         EventsOfRecovery(a, db.jobs[j], answers(a)))
            else SameView(db, post, i)
  {
    LiveIsLatest(db, a);
    RecoverRows(db, j, a, answers(a), now);
    RecoverHistory(db, j, a, answers(a), now, i);
    assert RecoverJob(db, j, db.jobs[j].status, answers, now)
        == RecoverAttempt(db, j, db.jobs[j].status, a, answers(a), now);
    hide RecoverJob, RecoverAttempt, History;
  }

  lemma RecoverUnbacked(db: Db, j: nat, answers: nat -> Answer, now: Time, i: nat)
    requires j < |db.jobs| && !HasLive(db, j) && i < |db.jobs|
    ensures var post := RecoverJob(db, j, db.jobs[j].status, answers, now);
            if i == j then Lost(db, post, j, now) else SameView(db, post, i)
  {
    var found := LatestOpen(db.attempts, j);
    assert found.Some? ==> db.attempts[found.value].ray.None?;
  }

  lemma RecoverJobVerdict(db: Db, j: nat, answers: nat -> Answer, now: Time, i: nat)
    requires Safe(db) && j in RecoverIds(db) && i < |db.jobs|
    ensures var post := RecoverJob(db, j, db.jobs[j].status, answers, now);
            if i == j then RecoveryVerdict(db, post, j, answers, now) else SameView(db, post, i)
  {
    if HasLive(db, j) {
      var a: nat :| a < |db.attempts| && Live(db.attempts[a]) && db.attempts[a].jobId == j;
      RecoverLive(db, j, a, answers, now, i);
      LiveIsSole(db, a);
      assert forall b: nat | b < |db.attempts| && Live(db.attempts[b]) && db.attempts[b].jobId == j :: b == a;
    } else {
      RecoverUnbacked(db, j, answers, now, i);
    }
    hide RecoverJob, Changed, Lost, SameView;
  }

  lemma RecoveryVerdictStays(db: Db, before: Db, post: Db, j: nat, answers: nat -> Answer, now: Time)
    requires RecoveryVerdict(db, before, j, answers, now) && SameView(before, post, j) && |before.jobs| == |db.jobs|
    ensures RecoveryVerdict(db, post, j, answers, now)
  {
  }

  lemma RecoveryVerdictFrom(db: Db, before: Db, post: Db, j: nat, answers: nat -> Answer, now: Time)
    requires SameView(db, before, j) && RecoveryVerdict(before, post, j, answers, now)
    ensures RecoveryVerdict(db, post, j, answers, now)
  {
    if HasLive(before, j) {
      var a: nat :| a < |before.attempts| && Live(before.attempts[a]) && before.attempts[a].jobId == j;
      assert Live(db.attempts[a]);
    }
  }

  /** The tables after a recovery of the first `n` fetched jobs. */
  ghost function RecoveredTo(db: Db, order: seq<nat>, n: nat, answers: nat -> Answer, now: Time): Db
    requires (forall j | j in order :: j < |db.jobs|) && n <= |order|
  {
    RecoverJobs(db, FetchJobs(db, order)[..n], answers, now)
  }

  lemma RecoveredToNext(db: Db, order: seq<nat>, n: nat, answers: nat -> Answer, now: Time)
    requires (forall j | j in order :: j < |db.jobs|) && n < |order|
    ensures order[n] in order
    ensures RecoveredTo(db, order, n + 1, answers, now)
         == RecoverJob(RecoveredTo(db, order, n, answers, now), order[n], db.jobs[order[n]].status, answers, now)
  {
    assert order[n] in order;
    assert FetchJobs(db, order)[..n + 1][..n] == FetchJobs(db, order)[..n];
  }

  /** What is known about job `j` after n rows. */
  ghost predicate RecoveredView(db: Db, post: Db, order: seq<nat>, n: nat, answers: nat -> Answer, now: Time, j: nat)
    requires n <= |order|
  {
    if j in Done(order, n) then RecoveryVerdict(db, post, j, answers, now) else SameView(db, post, j)
  }

  lemma RecoveredViewStep(db: Db, before: Db, order: seq<nat>, n: nat, answers: nat -> Answer, now: Time, j: nat)
    requires Safe(db) && Safe(before) && n < |order| && j < |db.jobs| && |before.jobs| == |db.jobs|
    requires order[n] in RecoverIds(db) && order[n] !in Done(order, n) && SameView(db, before, order[n])
    requires RecoveredView(db, before, order, n, answers, now, j)
    ensures RecoveredView(db, RecoverJob(before, order[n], db.jobs[order[n]].status, answers, now), order, n + 1,
                          answers, now, j)
  {
    var k := order[n];
    var post := RecoverJob(before, k, db.jobs[k].status, answers, now);
    assert before.jobs[k] == db.jobs[k] && k in RecoverIds(before);
    RecoverJobVerdict(before, k, answers, now, j);
    if j == k {
      RecoveryVerdictFrom(db, before, post, j, answers, now);
    } else if j in Done(order, n) {
      RecoveryVerdictStays(db, before, post, j, answers, now);
    } else {
      SameViewTwice(db, before, post, j);
    }
    hide RecoverJob, RecoveryVerdict, SameView, Safe;
  }

  lemma SafeWhileRecovering(db: Db, order: seq<nat>, n: nat, answers: nat -> Answer, now: Time)
    requires Safe(db) && Enumerates(order, RecoverIds(db)) && n <= |order|
    ensures forall j | j in order :: j < |db.jobs|
    ensures var post := RecoveredTo(db, order, n, answers, now); Safe(post) && |post.jobs| == |db.jobs|
  {
    RecoverJobsKeep(db, order, n, answers, now);
  }

  lemma NothingRecovered(db: Db, order: seq<nat>, answers: nat -> Answer, now: Time, j: nat)
    requires (forall k | k in order :: k < |db.jobs|) && j < |db.jobs|
    ensures RecoveredView(db, RecoveredTo(db, order, 0, answers, now), order, 0, answers, now, j)
  {
  }

  lemma NotYetRecovered(db: Db, post: Db, order: seq<nat>, n: nat, answers: nat -> Answer, now: Time, j: nat)
    requires n <= |order| && RecoveredView(db, post, order, n, answers, now, j) && j !in Done(order, n)
    ensures SameView(db, post, j)
  {
  }

  lemma {:induction false} JobsRecovered(db: Db, order: seq<nat>, n: nat, answers: nat -> Answer, now: Time, j: nat)
    requires Safe(db) && Enumerates(order, RecoverIds(db)) && n <= |order| && j < |db.jobs|
    requires forall k | k in order :: k < |db.jobs|
    ensures RecoveredView(db, RecoveredTo(db, order, n, answers, now), order, n, answers, now, j)
  {
    hide Safe, Enumerates, RecoverIds, RecoveredTo, RecoverJob, RecoveredView, RecoveryVerdict, SameView, Done;
    if n == 0 {
      NothingRecovered(db, order, answers, now, j);
    } else {
      var before := RecoveredTo(db, order, n - 1, answers, now);
      RecoveredToNext(db, order, n - 1, answers, now);
      JobsRecovered(db, order, n - 1, answers, now, j);
      JobsRecovered(db, order, n - 1, answers, now, order[n - 1]);
      NotDoneYet(order, RecoverIds(db), n);
      NotYetRecovered(db, before, order, n - 1, answers, now, order[n - 1]);
      SafeWhileRecovering(db, order, n - 1, answers, now);
      RecoveredViewStep(db, before, order, n - 1, answers, now, j);
    }
  }

  /**
   After a recovery, whatever the order: every job that was QUEUED, RUNNING or CANCELLING has become what the answer
   about its live attempt says, or LOST when it had none; every other job is as it was.
   */
  lemma RecoveryOutcome(db: Db, order: seq<nat>, answers: nat -> Answer, now: Time, j: nat)
    requires Safe(db) && Enumerates(order, RecoverIds(db)) && j < |db.jobs|
    ensures var post := Recovered(db, order, answers, now);
            if db.jobs[j].status in {QUEUED, RUNNING, CANCELLING} then RecoveryVerdict(db, post, j, answers, now)
            else SameView(db, post, j)
  {
    SafeWhileRecovering(db, order, |order|, answers, now);
    JobsRecovered(db, order, |order|, answers, now, j);
    DoneIsPrefix(order, |order|);
    assert j in Done(order, |order|) <==> j in order;
    assert j in order <==> j in RecoverIds(db);
    var rows := FetchJobs(db, order);
    assert rows[..|order|] == rows;
  }
}
