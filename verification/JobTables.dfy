/**
 The three tables of the job runtime and the writes the two services make to them.
 A table is the sequence of its rows in insertion order and a row's id is its position,
 so fresh ids are the next positions and no row ever disappears.
 */
module JobTables {
  import opened Wrappers
  import opened JobStateMachine
  import opened Numbering

  type Time = int
  type RayId = nat

  const MAX_CONCURRENT := 30

  datatype Job = Job(tenant: string, key: Option<string>, timeout: int,
                     status: Status, finishedAt: Option<Time>)

  datatype Attempt = Attempt(jobId: nat, number: nat, ray: Option<RayId>, status: Status,
                             startedAt: Option<Time>, finishedAt: Option<Time>)

  /** `event_type`: a status in lower case, or "started", "retried", "artifact_created". */
  datatype Kind = Entered(status: Status) | Launched | Requested | ArtifactCreated

  datatype Event = Event(jobId: nat, seqNo: nat, kind: Kind, attemptId: Option<nat>)

  datatype Db = Db(jobs: seq<Job>, attempts: seq<Attempt>, events: seq<Event>)

  /** `status IN ('QUEUED','RUNNING')`. */
  predicate Open(s: Status) { s == QUEUED || s == RUNNING }

  /** What sync watches: an open attempt that Ray knows about. */
  predicate Live(a: Attempt) { Open(a.status) && a.ray.Some? }

  function AttemptKeys(attempts: seq<Attempt>): (keys: seq<Key>) {
    seq(|attempts|, i requires 0 <= i < |attempts| => Key(attempts[i].jobId, attempts[i].number))
  }

  function EventKeys(events: seq<Event>): (keys: seq<Key>) {
    seq(|events|, i requires 0 <= i < |events| => Key(events[i].jobId, events[i].seqNo))
  }

  // ---- single statements; an UPDATE that matches no row changes nothing ----

  function SetJob(db: Db, j: nat, row: Job): Db {
    if j < |db.jobs| then db.(jobs := db.jobs[j := row]) else db
  }

  function SetAttempt(db: Db, a: nat, row: Attempt): Db {
    if a < |db.attempts| then db.(attempts := db.attempts[a := row]) else db
  }

  /** `UPDATE job_runs SET status = to WHERE job_id = j`. */
  function MoveJob(db: Db, j: nat, to: Status): Db {
    if j < |db.jobs| then SetJob(db, j, db.jobs[j].(status := to)) else db
  }

  /** `UPDATE job_runs SET status = to, finished_at = now() WHERE job_id = j`. */
  function CloseJob(db: Db, j: nat, to: Status, now: Time): Db {
    if j < |db.jobs| then SetJob(db, j, db.jobs[j].(status := to, finishedAt := Some(now))) else db
  }

  /** The same statement with `AND status IN ('RUNNING','QUEUED')`. */
  function CloseOpenJob(db: Db, j: nat, to: Status, now: Time): Db {
    if j < |db.jobs| && Open(db.jobs[j].status) then CloseJob(db, j, to, now) else db
  }

  /** `UPDATE job_attempts SET status = to, finished_at = now() WHERE attempt_id = a`. */
  function CloseAttempt(db: Db, a: nat, to: Status, now: Time): Db {
    if a < |db.attempts|
    then SetAttempt(db, a, db.attempts[a].(status := to, finishedAt := Some(now)))
    else db
  }

  /** Both services number a job's events with `COALESCE(max(event_seq), 0) + 1`. */
  function WithEvent(db: Db, j: nat, kind: Kind, attemptId: Option<nat>): Db {
    db.(events := db.events + [Event(j, MaxNumber(EventKeys(db.events), j) + 1, kind, attemptId)])
  }

  function InsertAttempt(db: Db, j: nat): Db {
    var number := MaxNumber(AttemptKeys(db.attempts), j) + 1;
    db.(attempts := db.attempts + [Attempt(j, number, None, QUEUED, None, None)])
  }

  // ---- queries ----

  function CountRunning(jobs: seq<Job>, tenant: string): nat {
    if jobs == [] then 0
    else
      var last := jobs[|jobs| - 1];
      CountRunning(jobs[..|jobs| - 1], tenant)
      + if last.tenant == tenant && last.status == RUNNING then 1 else 0
  }

  function FindByKey(jobs: seq<Job>, tenant: string, key: string): (found: Option<nat>)
    ensures found.Some? ==> found.value < |jobs| && jobs[found.value].tenant == tenant
                            && jobs[found.value].key == Some(key)
    ensures found.None? ==> forall i | 0 <= i < |jobs| :: jobs[i].tenant != tenant || jobs[i].key != Some(key)
  {
    if jobs == [] then None
    else
      var last := jobs[|jobs| - 1];
      if last.tenant == tenant && last.key == Some(key) then Some(|jobs| - 1)
      else FindByKey(jobs[..|jobs| - 1], tenant, key)
  }

  /** `WHERE job_id = j AND status IN ('QUEUED','RUNNING') ORDER BY attempt_number DESC LIMIT 1`. */
  function LatestOpen(attempts: seq<Attempt>, j: nat): (found: Option<nat>)
    ensures found.Some? ==>
      && found.value < |attempts| && attempts[found.value].jobId == j && Open(attempts[found.value].status)
      && forall i | 0 <= i < |attempts| && attempts[i].jobId == j && Open(attempts[i].status) ::
           attempts[i].number <= attempts[found.value].number
    ensures found.None? ==> forall i | 0 <= i < |attempts| && attempts[i].jobId == j :: !Open(attempts[i].status)
  {
    if attempts == [] then None
    else
      var rest := LatestOpen(attempts[..|attempts| - 1], j);
      var last := attempts[|attempts| - 1];
      if last.jobId == j && Open(last.status) && (rest.None? || attempts[rest.value].number <= last.number)
      then Some(|attempts| - 1)
      else rest
  }

  /** A SELECT without ORDER BY returns the matching rows in some order, each once. */
  ghost predicate Enumerates(order: seq<nat>, ids: set<nat>) {
    && (forall i, k | 0 <= i < k < |order| :: order[i] != order[k])
    && (forall x :: x in order <==> x in ids)
  }

  function LiveIds(db: Db): set<nat> {
    set a: nat | a < |db.attempts| && Live(db.attempts[a])
  }

  ghost predicate HasLive(db: Db, j: nat) {
    exists a | 0 <= a < |db.attempts| :: Live(db.attempts[a]) && db.attempts[a].jobId == j
  }

  /** The events of one job in order, without their numbers. */
  function History(events: seq<Event>, j: nat): seq<(Kind, Option<nat>)> {
    if events == [] then []
    else
      var last := events[|events| - 1];
      History(events[..|events| - 1], j) + if last.jobId == j then [(last.kind, last.attemptId)] else []
  }

  /** Every attempt belongs to a job: the foreign key of the table. */
  ghost predicate Linked(db: Db) {
    forall a | 0 <= a < |db.attempts| :: db.attempts[a].jobId < |db.jobs|
  }

  /** The database as one mutable object that both services hold. */
  class Tables {
    var jobs: seq<Job>
    var attempts: seq<Attempt>
    var events: seq<Event>

    constructor ()
      ensures View() == Db([], [], [])
    {
      jobs, attempts, events := [], [], [];
    }

    function View(): Db reads this { Db(jobs, attempts, events) }

    method WriteEvent(j: nat, kind: Kind, attemptId: Option<nat>)
      modifies this`events
      ensures View() == WithEvent(old(View()), j, kind, attemptId)
    {
      var next := MaxNumber(EventKeys(events), j) + 1;
      events := events + [Event(j, next, kind, attemptId)];
    }
  }
}
