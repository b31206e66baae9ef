/** Submit, retry and cancel keep the joint invariant. */
module JobCallSafety {
  import opened Wrappers
  import opened JobStateMachine
  import opened JobTables
  import opened Numbering
  import opened JobService
  import opened JobSafety

  // ---- launching an attempt of a QUEUED job ----

  ghost predicate Launchable(db: Db, a: nat, j: nat) {
    && Safe(db) && a < |db.attempts| && j == db.attempts[a].jobId && Sole(db, a)
    && db.attempts[a].status == QUEUED && db.attempts[a].ray.None? && db.attempts[a].startedAt.None?
    && db.jobs[j].status == QUEUED
  }

  lemma StartKeeps(db: Db, a: nat, j: nat, ray: RayId, now: Time)
    requires Launchable(db, a, j)
    ensures var post := StartAttempt(db, j, a, ray, now);
            Kept(db, post, j) && Logged(db, post)
  {
    EventLogged(db, j, Launched, Some(a));
    RewriteKeeps(db, StartAttempt(db, j, a, ray, now), a, j);
  }

  lemma SubmitLaunchKeeps(db: Db, a: nat, j: nat, launch: Launch, now: Time)
    requires Launchable(db, a, j)
    ensures var post := LaunchSubmitted(db, j, a, launch, now);
            Kept(db, post, j) && Logged(db, post)
  {
    match launch {
      case NoBackend =>
      case Started(ray) => StartKeeps(db, a, j, ray, now);
      case Refused =>
        EventLogged(db, j, Entered(FAILED), Some(a));
        RewriteKeeps(db, LaunchSubmitted(db, j, a, launch, now), a, j);
    }
  }

  lemma RetryLaunchKeeps(db: Db, a: nat, j: nat, launch: Launch, now: Time)
    requires Launchable(db, a, j)
    ensures var post := LaunchRetried(db, j, a, launch, now);
            Kept(db, post, j) && Logged(db, post)
  {
    match launch {
      case NoBackend =>
      case Started(ray) => StartKeeps(db, a, j, ray, now);
      case Refused =>
        EventLogged(db, j, Entered(FAILED), Some(a));
        RewriteKeeps(db, LaunchRetried(db, j, a, launch, now), a, j);
    }
  }

  // ---- submit ----

  /** A fresh job owns no numbers yet, so its first attempt is number 1. */
  lemma {:induction false} NoNumbersYet(keys: seq<Key>, owner: nat)
    requires forall i | 0 <= i < |keys| :: keys[i].owner < owner
    ensures MaxNumber(keys, owner) == 0
  {
    if keys != [] { NoNumbersYet(keys[..|keys| - 1], owner); }
  }

  lemma NewJobRows(db: Db, ctx: Context, req: Request)
    requires Linked(db)
    ensures var post, j := NewJob(db, ctx, req), |db.jobs|;
            && post.jobs == db.jobs + [Job(ctx.tenant, req.key, req.timeout, QUEUED, None)]
            && post.attempts == InsertAttempt(db, j).attempts
            && post.attempts == db.attempts + [Attempt(j, 1, None, QUEUED, None, None)]
            && Logged(db, post)
  {
    var j := |db.jobs|;
    EventLogged(db, j, Entered(SUBMITTED), None);
    EventLogged(WithEvent(db, j, Entered(SUBMITTED), None), j, Entered(QUEUED), Some(|db.attempts|));
    NoNumbersYet(AttemptKeys(db.attempts), j);
    var post := NewJob(db, ctx, req);
    assert post.events == WithEvent(WithEvent(db, j, Entered(SUBMITTED), None), j, Entered(QUEUED),
                                    Some(|db.attempts|)).events;
    assert post.jobs == db.jobs + [Job(ctx.tenant, req.key, req.timeout, QUEUED, None)];
  }

  lemma NewJobKeeps(db: Db, ctx: Context, req: Request)
    requires Inv(db) && SubmitRefusal(db, ctx, req).None?
    ensures var post := NewJob(db, ctx, req);
            Numbers(post) && Launchable(post, |db.attempts|, |db.jobs|) && Evolves(db, post)
  {
    NewJobRows(db, ctx, req);
    InsertNumbered(db, |db.jobs|);
  }

  lemma SubmitKeeps(db: Db, ctx: Context, req: Request, launch: Launch, now: Time)
    requires Inv(db) && SubmitRefusal(db, ctx, req).None?
    ensures var post := Submitted(db, ctx, req, launch, now);
            Inv(post) && Evolves(db, post) && db.events <= post.events
  {
    var made := NewJob(db, ctx, req);
    NewJobRows(db, ctx, req);
    NewJobKeeps(db, ctx, req);
    SubmitLaunchKeeps(made, |db.attempts|, |db.jobs|, launch, now);
    var post := Submitted(db, ctx, req, launch, now);
    NumbersKept(made, post);
    EvolvesTransitive(db, made, post);
  }

  // ---- retry ----

  lemma RequeueNumbers(db: Db, j: nat)
    requires Numbers(db) && j < |db.jobs|
    ensures Numbers(Requeued(db, j)) && Logged(db, Requeued(db, j))
  {
    EventLogged(db, j, Requested, Some(|db.attempts|));
    assert Requeued(db, j).events == WithEvent(db, j, Requested, Some(|db.attempts|)).events;
    InsertNumbered(db, j);
  }

  lemma RequeueKeeps(db: Db, j: nat)
    requires Inv(db) && j < |db.jobs| && db.jobs[j].status in {FAILED, TIMED_OUT, LOST}
    ensures var post := Requeued(db, j);
            Numbers(post) && Launchable(post, |db.attempts|, j) && Evolves(db, post) && Logged(db, post)
  {
    RequeueNumbers(db, j);
    InsertNumbered(db, j);
  }

  lemma RetryKeeps(db: Db, j: nat, launch: Launch, now: Time)
    requires Inv(db) && j < |db.jobs| && db.jobs[j].status in {FAILED, TIMED_OUT, LOST}
    ensures var post := Retried(db, j, launch, now);
            Inv(post) && Evolves(db, post) && db.events <= post.events
  {
    var queued := Requeued(db, j);
    RequeueKeeps(db, j);
    RetryLaunchKeeps(queued, |db.attempts|, j, launch, now);
    var post := Retried(db, j, launch, now);
    NumbersKept(queued, post);
    EvolvesTransitive(db, queued, post);
  }

  // ---- cancel ----

  /** The job and all of its open attempts close together. */
  lemma CloseAllKeeps(db: Db, post: Db, j: nat, now: Time)
    requires Safe(db) && j < |db.jobs| && !IsTerminal(db.jobs[j].status)
    requires post.jobs == db.jobs[j := db.jobs[j].(status := CANCELLED, finishedAt := Some(now))]
    requires post.attempts == CancelAttempts(db.attempts, j, now)
    ensures Kept(db, post, j)
  {
  }

  lemma CancelKeeps(db: Db, j: nat, stopsEarly: bool, now: Time)
    requires Safe(db) && j < |db.jobs|
    requires CanTransition(db.jobs[j].status, CANCELLING) || CanTransition(db.jobs[j].status, CANCELLED)
    ensures var post := Cancelled(db, j, stopsEarly, now); Kept(db, post, j) && Logged(db, post)
  {
    var post := Cancelled(db, j, stopsEarly, now);
    var moving := CanTransition(db.jobs[j].status, CANCELLING);
    if moving && stopsEarly {
      JobAloneKeeps(db, post, j);
    } else {
      var logged := if moving then WithEvent(db, j, Entered(CANCELLING), None) else db;
      EventLogged(db, j, Entered(CANCELLING), None);
      EventLogged(logged, j, Entered(CANCELLED), None);
      assert post.jobs == db.jobs[j := db.jobs[j].(status := CANCELLED, finishedAt := Some(now))];
      assert post.events == WithEvent(logged, j, Entered(CANCELLED), None).events;
      CloseAllKeeps(db, post, j, now);
    }
  }
}
