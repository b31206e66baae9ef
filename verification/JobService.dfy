/** Submit, cancel and retry: the calls a user makes. */
module JobService {
  import opened Wrappers
  import opened JobStateMachine
  import opened JobTables
  import opened Numbering

  datatype JobError =
    | SkillUnavailable | ConcurrencyLimit | DuplicateKey
    | JobNotFound | PermissionDenied | InvalidTransition | NotRetryable

  datatype Context = Context(tenant: string, admin: bool)

  /** The skill lookup and the resolved resources are answers from code outside the model. */
  datatype Request = Request(key: Option<string>, skillUsable: bool, timeout: int)

  /** What the execution backend did with a new attempt. */
  datatype Launch = NoBackend | Started(ray: RayId) | Refused

  // ---- submit ----

  /** The job an earlier call with the same non-empty idempotency key made. */
  function Existing(db: Db, ctx: Context, req: Request): Option<nat> {
    if req.key.Some? && req.key.value != "" then FindByKey(db.jobs, ctx.tenant, req.key.value) else None
  }

  function SubmitRefusal(db: Db, ctx: Context, req: Request): Option<JobError> {
    if !req.skillUsable then Some(SkillUnavailable)
    else if CountRunning(db.jobs, ctx.tenant) >= MAX_CONCURRENT then Some(ConcurrencyLimit)
    else if req.key.Some? && FindByKey(db.jobs, ctx.tenant, req.key.value).Some? then Some(DuplicateKey)
    else None
  }

  function NewJob(db: Db, ctx: Context, req: Request): Db {
    var j := |db.jobs|;
    var db := db.(jobs := db.jobs + [Job(ctx.tenant, req.key, req.timeout, SUBMITTED, None)]);
    var db := WithEvent(db, j, Entered(SUBMITTED), None);
    var db := db.(attempts := db.attempts + [Attempt(j, 1, None, QUEUED, None, None)]);
    var db := MoveJob(db, j, QUEUED);
    WithEvent(db, j, Entered(QUEUED), Some(|db.attempts| - 1))
  }

  /** Both submit and retry: the backend took the attempt. */
  function StartAttempt(db: Db, j: nat, a: nat, ray: RayId, now: Time): Db {
    var db := if a < |db.attempts|
              then SetAttempt(db, a, db.attempts[a].(ray := Some(ray), status := RUNNING, startedAt := Some(now)))
              else db;
    WithEvent(MoveJob(db, j, RUNNING), j, Launched, Some(a))
  }

  function LaunchSubmitted(db: Db, j: nat, a: nat, launch: Launch, now: Time): Db {
    match launch
    case NoBackend => db
    case Started(ray) => StartAttempt(db, j, a, ray, now)
    case Refused => WithEvent(CloseJob(CloseAttempt(db, a, FAILED, now), j, FAILED, now), j, Entered(FAILED), Some(a))
  }

  function Submitted(db: Db, ctx: Context, req: Request, launch: Launch, now: Time): Db {
    LaunchSubmitted(NewJob(db, ctx, req), |db.jobs|, |db.attempts|, launch, now)
  }

  // ---- cancel ----

  function AccessError(db: Db, ctx: Context, j: nat): Option<JobError> {
    if j >= |db.jobs| then Some(JobNotFound)
    else if db.jobs[j].tenant != ctx.tenant && !ctx.admin then Some(PermissionDenied)
    else None
  }

  function CancelRefusal(db: Db, ctx: Context, j: nat): Option<JobError> {
    if AccessError(db, ctx, j).Some? then AccessError(db, ctx, j)
    else if !CanTransition(db.jobs[j].status, CANCELLING) && !CanTransition(db.jobs[j].status, CANCELLED)
    then Some(InvalidTransition)
    else None
  }

  /** One UPDATE over every open attempt of the job. */
  function CancelAttempts(attempts: seq<Attempt>, j: nat, now: Time): (r: seq<Attempt>) {
    seq(|attempts|, i requires 0 <= i < |attempts| =>
      if attempts[i].jobId == j && Open(attempts[i].status)
      then attempts[i].(status := CANCELLED, finishedAt := Some(now))
      else attempts[i])
  }

  /** `stopsEarly`: the process ends right after the first write of a job that must pass through CANCELLING. */
  function Cancelled(db: Db, j: nat, stopsEarly: bool, now: Time): Db
    requires j < |db.jobs|
  {
    if CanTransition(db.jobs[j].status, CANCELLING) && stopsEarly then MoveJob(db, j, CANCELLING)
    else
      var db := if CanTransition(db.jobs[j].status, CANCELLING)
                then WithEvent(MoveJob(db, j, CANCELLING), j, Entered(CANCELLING), None)
                else db;
      var db := CloseJob(db, j, CANCELLED, now);
      var db := db.(attempts := CancelAttempts(db.attempts, j, now));
      WithEvent(db, j, Entered(CANCELLED), None)
  }

  // ---- retry ----

  function RetryRefusal(db: Db, ctx: Context, j: nat): Option<JobError> {
    if AccessError(db, ctx, j).Some? then AccessError(db, ctx, j)
    else if db.jobs[j].status !in {FAILED, TIMED_OUT, LOST} then Some(NotRetryable)
    else None
  }

  /** Unlike in submit, a refused launch closes only the attempt: the job stays QUEUED. */
  function LaunchRetried(db: Db, j: nat, a: nat, launch: Launch, now: Time): Db {
    match launch
    case NoBackend => db
    case Started(ray) => StartAttempt(db, j, a, ray, now)
    case Refused => WithEvent(CloseAttempt(db, a, FAILED, now), j, Entered(FAILED), Some(a))
  }

  function Requeued(db: Db, j: nat): Db
    requires j < |db.jobs|
  {
    var a := |db.attempts|;
    var db := InsertAttempt(db, j);
    var db := SetJob(db, j, db.jobs[j].(status := QUEUED, finishedAt := None));
    WithEvent(db, j, Requested, Some(a))
  }

  function Retried(db: Db, j: nat, launch: Launch, now: Time): Db
    requires j < |db.jobs|
  {
    LaunchRetried(Requeued(db, j), j, |db.attempts|, launch, now)
  }

  class Service {
    const tables: Tables

    constructor (tables: Tables)
      ensures this.tables == tables
    {
      this.tables := tables;
    }

    method Submit(ctx: Context, req: Request, launch: Launch, now: Time) returns (r: Result<nat, JobError>)
      modifies tables
      ensures var db := old(tables.View());
              match Existing(db, ctx, req)
              case Some(j) => r == Success(j) && tables.View() == db
              case None =>
                match SubmitRefusal(db, ctx, req)
                case Some(e) => r == Failure(e) && tables.View() == db
                case None => r == Success(|db.jobs|) && tables.View() == Submitted(db, ctx, req, launch, now)
    {
      if req.key.Some? && req.key.value != "" {
        var existing := FindByKey(tables.jobs, ctx.tenant, req.key.value);
        if existing.Some? { return Success(existing.value); }
      }
      if !req.skillUsable { return Failure(SkillUnavailable); }
      if CountRunning(tables.jobs, ctx.tenant) >= MAX_CONCURRENT { return Failure(ConcurrencyLimit); }
      if req.key.Some? && FindByKey(tables.jobs, ctx.tenant, req.key.value).Some? { return Failure(DuplicateKey); }

      var j, a := |tables.jobs|, |tables.attempts|;
      tables.jobs := tables.jobs + [Job(ctx.tenant, req.key, req.timeout, SUBMITTED, None)];
      tables.WriteEvent(j, Entered(SUBMITTED), None);
      tables.attempts := tables.attempts + [Attempt(j, 1, None, QUEUED, None, None)];
      tables.jobs := tables.jobs[j := tables.jobs[j].(status := QUEUED)];
      tables.WriteEvent(j, Entered(QUEUED), Some(a));
      assert tables.View() == NewJob(old(tables.View()), ctx, req);

      if launch.Started? {
        Start(j, a, launch.ray, now);
      } else if launch.Refused? {
        tables.attempts := tables.attempts[a := tables.attempts[a].(status := FAILED, finishedAt := Some(now))];
        tables.jobs := tables.jobs[j := tables.jobs[j].(status := FAILED, finishedAt := Some(now))];
        tables.WriteEvent(j, Entered(FAILED), Some(a));
      }
      return Success(j);
    }

    method Start(j: nat, a: nat, ray: RayId, now: Time)
      requires j < |tables.jobs| && a < |tables.attempts|
      modifies tables
      ensures tables.View() == StartAttempt(old(tables.View()), j, a, ray, now)
    {
      var row := tables.attempts[a];
      tables.attempts := tables.attempts[a := row.(ray := Some(ray), status := RUNNING, startedAt := Some(now))];
      tables.jobs := tables.jobs[j := tables.jobs[j].(status := RUNNING)];
      tables.WriteEvent(j, Launched, Some(a));
    }

    method Cancel(ctx: Context, j: nat, stopsEarly: bool, now: Time) returns (r: Result<nat, JobError>)
      modifies tables
      ensures var db := old(tables.View());
              match CancelRefusal(db, ctx, j)
              case Some(e) => r == Failure(e) && tables.View() == db
              case None => r == Success(j) && tables.View() == Cancelled(db, j, stopsEarly, now)
    {
      var denied := AccessError(tables.View(), ctx, j);
      if denied.Some? { return Failure(denied.value); }
      var status := tables.jobs[j].status;
      if !CanTransition(status, CANCELLING) && !CanTransition(status, CANCELLED) {
        return Failure(InvalidTransition);
      }
      if CanTransition(status, CANCELLING) {
        tables.jobs := tables.jobs[j := tables.jobs[j].(status := CANCELLING)];
        if stopsEarly { return Success(j); }
        tables.WriteEvent(j, Entered(CANCELLING), None);
      }
      tables.jobs := tables.jobs[j := tables.jobs[j].(status := CANCELLED, finishedAt := Some(now))];
      tables.attempts := CancelAttempts(tables.attempts, j, now);
      tables.WriteEvent(j, Entered(CANCELLED), None);
      return Success(j);
    }

    method Retry(ctx: Context, j: nat, launch: Launch, now: Time) returns (r: Result<nat, JobError>)
      modifies tables
      ensures var db := old(tables.View());
              match RetryRefusal(db, ctx, j)
              case Some(e) => r == Failure(e) && tables.View() == db
              case None => r == Success(j) && tables.View() == Retried(db, j, launch, now)
    {
      var denied := AccessError(tables.View(), ctx, j);
      if denied.Some? { return Failure(denied.value); }
      if tables.jobs[j].status !in {FAILED, TIMED_OUT, LOST} { return Failure(NotRetryable); }

      var a := |tables.attempts|;
      var number := MaxNumber(AttemptKeys(tables.attempts), j) + 1;
      tables.attempts := tables.attempts + [Attempt(j, number, None, QUEUED, None, None)];
      tables.jobs := tables.jobs[j := tables.jobs[j].(status := QUEUED, finishedAt := None)];
      tables.WriteEvent(j, Requested, Some(a));
      assert tables.View() == Requeued(old(tables.View()), j);

      if launch.Started? {
        Start(j, a, launch.ray, now);
      } else if launch.Refused? {
        tables.attempts := tables.attempts[a := tables.attempts[a].(status := FAILED, finishedAt := Some(now))];
        tables.WriteEvent(j, Entered(FAILED), Some(a));
      }
      return Success(j);
    }
  }
}
