/** The background writer: periodic sync with Ray, timeouts and recovery on startup. */
module JobSyncService {
  import opened Wrappers
  import opened JobStateMachine
  import opened JobTables
  import opened Numbering

  datatype RayStatus =
    | RayPending | RayQueued | RayRunning | RaySucceeded | RayFailed | RayStopped | RayOther(text: string)

  /** What asking Ray about one attempt gives. `hasResult`: fetching the result afterwards works. */
  datatype Answer = Reports(status: RayStatus, hasResult: bool) | Unreachable

  /** `_RAY_STATUS_MAP.get(status, "UNKNOWN")`, with None for UNKNOWN. */
  function MapRay(s: RayStatus): Option<Status> {
    match s
    case RayPending => Some(QUEUED)
    case RayQueued => Some(QUEUED)
    case RayRunning => Some(RUNNING)
    case RaySucceeded => Some(SUCCEEDED)
    case RayFailed => Some(FAILED)
    case RayStopped => Some(CANCELLED)
    case RayOther(_) => None
  }

  /** A row fetched before the loop: the loop trusts these values even after other rows were written. */
  datatype Row = Row(attemptId: nat, attempt: Attempt, jobStatus: Status)

  // ---- helpers shared by sync and recovery ----

  function UpdateAttemptStatus(db: Db, a: nat, to: Status, now: Time): Db {
    if a >= |db.attempts| then db
    else
      var row := db.attempts[a];
      SetAttempt(db, a, row.(
        status := to,
        startedAt := if to == RUNNING && row.startedAt.None? then Some(now) else row.startedAt,
        finishedAt := if to in {SUCCEEDED, FAILED, CANCELLED} then Some(now) else row.finishedAt))
  }

  /** Does nothing for CANCELLED: the table has no edge from RUNNING to it. */
  function FinalizeJob(db: Db, j: nat, to: Status, now: Time): Db {
    if CanTransition(RUNNING, to) then WithEvent(CloseOpenJob(db, j, to, now), j, Entered(to), None) else db
  }

  function MarkLost(db: Db, a: nat, j: nat, now: Time): Db {
    WithEvent(CloseOpenJob(CloseAttempt(db, a, LOST, now), j, LOST, now), j, Entered(LOST), Some(a))
  }

  /** Storing the result is outside the model; its event is not. */
  function CollectResult(db: Db, a: nat, j: nat, hasResult: bool): Db {
    if hasResult then WithEvent(db, j, ArtifactCreated, Some(a)) else db
  }

  // ---- sync_all ----

  function SyncReported(db: Db, row: Row, to: Status, hasResult: bool, now: Time): Db {
    var j := row.attempt.jobId;
    var db := if to != row.attempt.status then UpdateAttemptStatus(db, row.attemptId, to, now) else db;
    if to in {SUCCEEDED, FAILED, CANCELLED} then
      var db := if to == SUCCEEDED then CollectResult(db, row.attemptId, j, hasResult) else db;
      FinalizeJob(db, j, to, now)
    else if to == RUNNING && row.jobStatus != RUNNING then
      if j < |db.jobs| && db.jobs[j].status in {QUEUED, SUBMITTED} then MoveJob(db, j, RUNNING) else db
    else if to == QUEUED && row.jobStatus == RUNNING then MoveJob(db, j, QUEUED)
    else db
  }

  function SyncRow(db: Db, row: Row, answer: Answer, now: Time): Db {
    match answer
    case Unreachable => MarkLost(db, row.attemptId, row.attempt.jobId, now)
    case Reports(status, hasResult) =>
      match MapRay(status)
      case None => db
      case Some(to) => SyncReported(db, row, to, hasResult, now)
  }

  function SyncRows(db: Db, rows: seq<Row>, answers: nat -> Answer, now: Time): Db {
    if rows == [] then db
    else
      var last := rows[|rows| - 1];
      SyncRow(SyncRows(db, rows[..|rows| - 1], answers, now), last, answers(last.attemptId), now)
  }

  function RowOf(db: Db, a: nat): Row
    requires a < |db.attempts| && db.attempts[a].jobId < |db.jobs|
  {
    Row(a, db.attempts[a], db.jobs[db.attempts[a].jobId].status)
  }

  /** The fetched rows: each attempt joined with its job's status at the time of the query. */
  function Fetch(db: Db, order: seq<nat>): (rows: seq<Row>)
    requires forall a | a in order :: a < |db.attempts| && db.attempts[a].jobId < |db.jobs|
    ensures |rows| == |order|
  {
    seq(|order|, i requires 0 <= i < |order| => assert order[i] in order; RowOf(db, order[i]))
  }

  // ---- check_timeouts ----

  function TimeoutIds(db: Db): set<nat> {
    set a: nat | a < |db.attempts| && db.attempts[a].status == RUNNING && db.attempts[a].startedAt.Some?
                 && db.attempts[a].jobId < |db.jobs| && db.jobs[db.attempts[a].jobId].status == RUNNING
  }

  datatype TimedRow = TimedRow(attemptId: nat, jobId: nat, startedAt: Time, timeout: int)

  function TimedRowOf(db: Db, a: nat): TimedRow
    requires a in TimeoutIds(db)
  {
    var attempt := db.attempts[a];
    TimedRow(a, attempt.jobId, attempt.startedAt.value, db.jobs[attempt.jobId].timeout)
  }

  function FetchTimed(db: Db, order: seq<nat>): (rows: seq<TimedRow>)
    requires forall a | a in order :: a in TimeoutIds(db)
    ensures |rows| == |order|
  {
    seq(|order|, i requires 0 <= i < |order| => assert order[i] in order; TimedRowOf(db, order[i]))
  }

  function TimeoutRow(db: Db, row: TimedRow, now: Time): Db {
    if now - row.startedAt > row.timeout then
      var db := CloseAttempt(db, row.attemptId, TIMED_OUT, now);
      WithEvent(CloseJob(db, row.jobId, TIMED_OUT, now), row.jobId, Entered(TIMED_OUT), Some(row.attemptId))
    else db
  }

  function TimeoutRows(db: Db, rows: seq<TimedRow>, now: Time): Db {
    if rows == [] then db
    else TimeoutRow(TimeoutRows(db, rows[..|rows| - 1], now), rows[|rows| - 1], now)
  }

  // ---- recover_on_startup ----

  function RecoverIds(db: Db): set<nat> {
    set j: nat | j < |db.jobs| && db.jobs[j].status in {QUEUED, RUNNING, CANCELLING}
  }

  function RecoverAttempt(db: Db, j: nat, jobStatus: Status, a: nat, answer: Answer, now: Time): Db
    requires a < |db.attempts|
  {
    match answer
    case Unreachable => CloseJob(MarkLost(db, a, j, now), j, LOST, now)
    case Reports(status, _) =>
      var to := MapRay(status);
      if jobStatus == CANCELLING then CloseAttempt(CloseJob(db, j, CANCELLED, now), a, CANCELLED, now)
      else if to in {Some(SUCCEEDED), Some(FAILED), Some(CANCELLED)} then
        FinalizeJob(UpdateAttemptStatus(db, a, to.value, now), j, to.value, now)
      else if to == Some(RUNNING) then
        var row := db.attempts[a];
        SetAttempt(MoveJob(db, j, RUNNING), a, row.(
          status := RUNNING,
          startedAt := if row.startedAt.None? then Some(now) else row.startedAt))
      else db
  }

  /** `jobStatus` was fetched before the loop; the attempt is looked up inside it. */
  function RecoverJob(db: Db, j: nat, jobStatus: Status, answers: nat -> Answer, now: Time): Db {
    match LatestOpen(db.attempts, j)
    case None => CloseJob(db, j, LOST, now)
    case Some(a) =>
      if db.attempts[a].ray.None? then CloseJob(db, j, LOST, now)
      else RecoverAttempt(db, j, jobStatus, a, answers(a), now)
  }

  function RecoverJobs(db: Db, rows: seq<(nat, Status)>, answers: nat -> Answer, now: Time): Db {
    if rows == [] then db
    else
      var last := rows[|rows| - 1];
      RecoverJob(RecoverJobs(db, rows[..|rows| - 1], answers, now), last.0, last.1, answers, now)
  }

  function FetchJobs(db: Db, order: seq<nat>): (rows: seq<(nat, Status)>)
    requires forall j | j in order :: j < |db.jobs|
    ensures |rows| == |order|
  {
    seq(|order|, i requires 0 <= i < |order| => assert order[i] in order; (order[i], db.jobs[order[i]].status))
  }

  class Service {
    const tables: Tables

    constructor (tables: Tables)
      ensures this.tables == tables
    {
      this.tables := tables;
    }

    /** Reads the ids below `n` that satisfy a condition. Callers rely on no particular order. */
    method Select(ids: set<nat>, n: nat) returns (order: seq<nat>)
      requires forall x | x in ids :: x < n
      ensures Enumerates(order, ids)
    {
      order := [];
      for i := 0 to n
        invariant forall x :: x in order <==> x in ids && x < i
        invariant forall p, q | 0 <= p < q < |order| :: order[p] != order[q]
      {
        if i in ids { order := order + [i]; }
      }
    }

    method SyncAll(answers: nat -> Answer, now: Time) returns (ghost order: seq<nat>)
      requires Linked(tables.View())
      modifies tables
      ensures Enumerates(order, LiveIds(old(tables.View())))
      ensures tables.View() == SyncRows(old(tables.View()), Fetch(old(tables.View()), order), answers, now)
    {
      var ids := Select(LiveIds(tables.View()), |tables.attempts|);
      order := ids;
      var rows := Fetch(tables.View(), ids);
      for i := 0 to |rows|
        invariant tables.View() == SyncRows(old(tables.View()), rows[..i], answers, now)
      {
        assert rows[..i + 1][..i] == rows[..i];
        WriteRow(rows[i], answers(rows[i].attemptId), now);
      }
      assert rows[..|rows|] == rows;
    }

    /** One round of the loop: the row as it was fetched, and what Ray answers about it. */
    method WriteRow(row: Row, answer: Answer, now: Time)
      modifies tables
      ensures tables.View() == SyncRow(old(tables.View()), row, answer, now)
    {
      var a, j := row.attemptId, row.attempt.jobId;
      match answer
      case Unreachable =>
        WriteLost(a, j, now);
      case Reports(status, hasResult) =>
        var mapped := MapRay(status);
        if mapped.Some? {
          var to := mapped.value;
          if to != row.attempt.status { WriteAttemptStatus(a, to, now); }
          if to in {SUCCEEDED, FAILED, CANCELLED} {
            if to == SUCCEEDED && hasResult { tables.WriteEvent(j, ArtifactCreated, Some(a)); }
            WriteFinal(j, to, now);
          } else if to == RUNNING && row.jobStatus != RUNNING {
            if j < |tables.jobs| && tables.jobs[j].status in {QUEUED, SUBMITTED} {
              tables.jobs := tables.jobs[j := tables.jobs[j].(status := RUNNING)];
            }
          } else if to == QUEUED && row.jobStatus == RUNNING {
            if j < |tables.jobs| { tables.jobs := tables.jobs[j := tables.jobs[j].(status := QUEUED)]; }
          }
        }
    }

    method CheckTimeouts(now: Time) returns (ghost order: seq<nat>)
      modifies tables
      ensures Enumerates(order, TimeoutIds(old(tables.View())))
      ensures tables.View() == TimeoutRows(old(tables.View()), FetchTimed(old(tables.View()), order), now)
    {
      var ids := Select(TimeoutIds(tables.View()), |tables.attempts|);
      order := ids;
      var rows := FetchTimed(tables.View(), ids);
      for i := 0 to |rows|
        invariant tables.View() == TimeoutRows(old(tables.View()), rows[..i], now)
      {
        assert rows[..i + 1][..i] == rows[..i];
        var row := rows[i];
        if now - row.startedAt > row.timeout {
          WriteAttemptClosed(row.attemptId, TIMED_OUT, now);
          if row.jobId < |tables.jobs| {
            var job := tables.jobs[row.jobId];
            tables.jobs := tables.jobs[row.jobId := job.(status := TIMED_OUT, finishedAt := Some(now))];
          }
          tables.WriteEvent(row.jobId, Entered(TIMED_OUT), Some(row.attemptId));
        }
      }
      assert rows[..|rows|] == rows;
    }

    method RecoverOnStartup(answers: nat -> Answer, now: Time) returns (ghost order: seq<nat>)
      modifies tables
      ensures Enumerates(order, RecoverIds(old(tables.View())))
      ensures tables.View() == RecoverJobs(old(tables.View()), FetchJobs(old(tables.View()), order), answers, now)
    {
      var ids := Select(RecoverIds(tables.View()), |tables.jobs|);
      order := ids;
      var rows := FetchJobs(tables.View(), ids);
      for i := 0 to |rows|
        invariant tables.View() == RecoverJobs(old(tables.View()), rows[..i], answers, now)
      {
        assert rows[..i + 1][..i] == rows[..i];
        var (j, jobStatus) := rows[i];
        label before:
        var found := LatestOpen(tables.attempts, j);
        if found.None? {
          WriteJobClosed(j, LOST, now);
        } else if tables.attempts[found.value].ray.None? {
          WriteJobClosed(j, LOST, now);
        } else {
          var a := found.value;
          match answers(a)
          case Unreachable =>
            WriteLost(a, j, now);
            WriteJobClosed(j, LOST, now);
          case Reports(status, _) =>
            var to := MapRay(status);
            if jobStatus == CANCELLING {
              WriteJobClosed(j, CANCELLED, now);
              WriteAttemptClosed(a, CANCELLED, now);
            } else if to in {Some(SUCCEEDED), Some(FAILED), Some(CANCELLED)} {
              WriteAttemptStatus(a, to.value, now);
              WriteFinal(j, to.value, now);
            } else if to == Some(RUNNING) {
              if j < |tables.jobs| { tables.jobs := tables.jobs[j := tables.jobs[j].(status := RUNNING)]; }
              var row := tables.attempts[a];
              tables.attempts := tables.attempts[a := row.(
                status := RUNNING,
                startedAt := if row.startedAt.None? then Some(now) else row.startedAt)];
            }
        }
        assert tables.View() == RecoverJob(old@before(tables.View()), j, jobStatus, answers, now);
      }
      assert rows[..|rows|] == rows;
    }

    method WriteAttemptStatus(a: nat, to: Status, now: Time)
      modifies tables`attempts
      ensures tables.View() == UpdateAttemptStatus(old(tables.View()), a, to, now)
    {
      if a < |tables.attempts| {
        var row := tables.attempts[a];
        var started := if to == RUNNING && row.startedAt.None? then Some(now) else row.startedAt;
        var finished := if to in {SUCCEEDED, FAILED, CANCELLED} then Some(now) else row.finishedAt;
        tables.attempts := tables.attempts[a := row.(status := to, startedAt := started, finishedAt := finished)];
      }
    }

    method WriteAttemptClosed(a: nat, to: Status, now: Time)
      modifies tables`attempts
      ensures tables.View() == CloseAttempt(old(tables.View()), a, to, now)
    {
      if a < |tables.attempts| {
        tables.attempts := tables.attempts[a := tables.attempts[a].(status := to, finishedAt := Some(now))];
      }
    }

    method WriteJobClosed(j: nat, to: Status, now: Time)
      modifies tables`jobs
      ensures tables.View() == CloseJob(old(tables.View()), j, to, now)
    {
      if j < |tables.jobs| {
        tables.jobs := tables.jobs[j := tables.jobs[j].(status := to, finishedAt := Some(now))];
      }
    }

    method WriteFinal(j: nat, to: Status, now: Time)
      modifies tables`jobs, tables`events
      ensures tables.View() == FinalizeJob(old(tables.View()), j, to, now)
    {
      if CanTransition(RUNNING, to) {
        if j < |tables.jobs| && Open(tables.jobs[j].status) { WriteJobClosed(j, to, now); }
        tables.WriteEvent(j, Entered(to), None);
      }
    }

    method WriteLost(a: nat, j: nat, now: Time)
      modifies tables
      ensures tables.View() == MarkLost(old(tables.View()), a, j, now)
    {
      WriteAttemptClosed(a, LOST, now);
      if j < |tables.jobs| && Open(tables.jobs[j].status) { WriteJobClosed(j, LOST, now); }
      tables.WriteEvent(j, Entered(LOST), Some(a));
    }
  }
}
