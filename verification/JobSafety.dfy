/**
 What every call of the two services keeps. Each call is one atomic step, except that a cancel
 may stop after its first write; Ray, the clock and the order of fetched rows are arbitrary.
 */
module JobSafety {
  import opened Wrappers
  import opened JobStateMachine
  import opened JobTables
  import opened Numbering

  // ---- the joint invariant ----

  ghost predicate AttemptOk(a: Attempt) {
    && a.status !in {SUBMITTED, CANCELLING}
    && (a.status == RUNNING ==> a.ray.Some? && a.startedAt.Some?)
    && (a.finishedAt.Some? <==> IsTerminal(a.status))
  }

  ghost predicate JobOk(job: Job) {
    && job.status != SUBMITTED
    && (job.finishedAt.Some? <==> IsTerminal(job.status))
  }

  /** A live attempt has a larger number than every other attempt of its job. */
  ghost predicate LiveIsLast(attempts: seq<Attempt>) {
    forall a, b | 0 <= a < |attempts| && 0 <= b < |attempts| && a != b
      && Live(attempts[a]) && attempts[a].jobId == attempts[b].jobId ::
      attempts[b].number < attempts[a].number
  }

  ghost predicate NoneLiveWhenDone(db: Db)
    requires Linked(db)
  {
    forall a | 0 <= a < |db.attempts| && Live(db.attempts[a]) :: !IsTerminal(db.jobs[db.attempts[a].jobId].status)
  }

  ghost predicate KeysUnique(jobs: seq<Job>) {
    forall i, k | 0 <= i < k < |jobs| && jobs[i].tenant == jobs[k].tenant && jobs[i].key.Some? ::
      jobs[i].key != jobs[k].key
  }

  ghost predicate Safe(db: Db) {
    && Linked(db)
    && (forall a | 0 <= a < |db.attempts| :: AttemptOk(db.attempts[a]))
    && (forall j | 0 <= j < |db.jobs| :: JobOk(db.jobs[j]))
    && LiveIsLast(db.attempts)
    && NoneLiveWhenDone(db)
    && KeysUnique(db.jobs)
  }

  ghost predicate Numbers(db: Db) {
    Numbered(AttemptKeys(db.attempts)) && Numbered(EventKeys(db.events))
  }

  ghost predicate Inv(db: Db) { Safe(db) && Numbers(db) }

  // ---- what no step ever undoes ----

  ghost predicate JobEvolves(was: Job, post: Job) {
    && post.tenant == was.tenant && post.key == was.key && post.timeout == was.timeout
    && (was.status in {SUCCEEDED, CANCELLED} ==> post == was)
  }

  ghost predicate AttemptEvolves(was: Attempt, post: Attempt) {
    && post.jobId == was.jobId && post.number == was.number
    && (was.ray.Some? ==> post.ray == was.ray)
    && (was.startedAt.Some? ==> post.startedAt == was.startedAt)
    && (IsTerminal(was.status) ==> post == was)
  }

  ghost predicate Evolves(was: Db, post: Db) {
    && |was.jobs| <= |post.jobs| && |was.attempts| <= |post.attempts|
    && (forall j | 0 <= j < |was.jobs| :: JobEvolves(was.jobs[j], post.jobs[j]))
    && (forall a | 0 <= a < |was.attempts| :: AttemptEvolves(was.attempts[a], post.attempts[a]))
  }

  lemma EvolvesItself(db: Db)
    ensures Evolves(db, db)
  {
  }

  lemma EvolvesTransitive(first: Db, second: Db, third: Db)
    requires Evolves(first, second) && Evolves(second, third)
    ensures Evolves(first, third)
  {
  }

  // ---- numbering ----

  /** Events were only added, each with the next number of its job. */
  ghost predicate Logged(was: Db, post: Db) {
    was.events <= post.events && (Numbered(EventKeys(was.events)) ==> Numbered(EventKeys(post.events)))
  }

  /** No attempt was added, and the old ones kept job and number. */
  ghost predicate SameAttempts(was: Db, post: Db) {
    && |post.attempts| == |was.attempts|
    && forall a | 0 <= a < |was.attempts| ::
         post.attempts[a].jobId == was.attempts[a].jobId && post.attempts[a].number == was.attempts[a].number
  }

  lemma EventLogged(db: Db, j: nat, kind: Kind, attemptId: Option<nat>)
    ensures Logged(db, WithEvent(db, j, kind, attemptId))
  {
    var keys := EventKeys(db.events);
    if Numbered(keys) { AppendNext(keys, j); }
    assert EventKeys(WithEvent(db, j, kind, attemptId).events) == keys + [Key(j, MaxNumber(keys, j) + 1)];
  }

  lemma InsertNumbered(db: Db, j: nat)
    requires Numbered(AttemptKeys(db.attempts))
    ensures Numbered(AttemptKeys(InsertAttempt(db, j).attempts))
    ensures forall b | 0 <= b < |db.attempts| && db.attempts[b].jobId == j ::
              db.attempts[b].number <= MaxNumber(AttemptKeys(db.attempts), j)
  {
    var keys := AttemptKeys(db.attempts);
    AppendNext(keys, j);
    MaxIsCount(keys, j);
    assert AttemptKeys(InsertAttempt(db, j).attempts) == keys + [Key(j, MaxNumber(keys, j) + 1)];
    forall b | 0 <= b < |db.attempts| && db.attempts[b].jobId == j
      ensures db.attempts[b].number <= MaxNumber(keys, j)
    {
      assert keys[b] in keys;
      ExactlyOneToN(keys, j, keys[b].number);
    }
  }

  lemma NumbersKept(was: Db, post: Db)
    requires Numbers(was) && SameAttempts(was, post) && Logged(was, post)
    ensures Numbers(post)
  {
    assert AttemptKeys(post.attempts) == AttemptKeys(was.attempts);
  }

  // ---- rewriting one attempt and its job ----

  /** Nothing outside job `j` and its attempts changed. */
  ghost predicate OnlyJob(was: Db, post: Db, j: nat) {
    && |post.jobs| == |was.jobs| && SameAttempts(was, post)
    && (forall k | 0 <= k < |was.jobs| && k != j :: post.jobs[k] == was.jobs[k])
    && (forall a | 0 <= a < |was.attempts| && was.attempts[a].jobId != j :: post.attempts[a] == was.attempts[a])
  }

  ghost predicate Kept(was: Db, post: Db, j: nat) {
    Safe(post) && Evolves(was, post) && OnlyJob(was, post, j)
  }

  lemma NothingKept(db: Db, j: nat)
    requires Safe(db)
    ensures Kept(db, db, j) && Logged(db, db)
  {
  }

  /** Every other attempt of the job is older and not live. */
  ghost predicate Sole(db: Db, a: nat)
    requires a < |db.attempts|
  {
    forall b | 0 <= b < |db.attempts| && b != a && db.attempts[b].jobId == db.attempts[a].jobId ::
      !Live(db.attempts[b]) && db.attempts[b].number < db.attempts[a].number
  }

  lemma LiveIsSole(db: Db, a: nat)
    requires Safe(db) && a < |db.attempts| && Live(db.attempts[a])
    ensures Sole(db, a)
  {
  }

  /** What most writes come down to: new rows for an attempt without live rivals and for its job. */
  lemma RewriteKeeps(db: Db, post: Db, a: nat, j: nat)
    requires Safe(db) && a < |db.attempts| && j == db.attempts[a].jobId && Sole(db, a)
    requires |post.attempts| == |db.attempts| && |post.jobs| == |db.jobs|
    requires post.attempts == db.attempts[a := post.attempts[a]] && post.jobs == db.jobs[j := post.jobs[j]]
    requires AttemptEvolves(db.attempts[a], post.attempts[a]) && AttemptOk(post.attempts[a])
    requires JobEvolves(db.jobs[j], post.jobs[j]) && JobOk(post.jobs[j])
    requires Live(post.attempts[a]) ==> !IsTerminal(post.jobs[j].status)
    ensures Kept(db, post, j)
  {
    assert LiveIsLast(post.attempts) by {
      forall x, y | 0 <= x < |post.attempts| && 0 <= y < |post.attempts| && x != y
        && Live(post.attempts[x]) && post.attempts[x].jobId == post.attempts[y].jobId
        ensures post.attempts[y].number < post.attempts[x].number
      {
        assert x == a || post.attempts[x] == db.attempts[x];
        assert y == a || post.attempts[y] == db.attempts[y];
      }
    }
  }

  /** A job may change on its own if it has no live attempt or does not become terminal. */
  lemma JobAloneKeeps(db: Db, post: Db, j: nat)
    requires Safe(db) && j < |db.jobs| && |post.jobs| == |db.jobs|
    requires post.attempts == db.attempts && post.jobs == db.jobs[j := post.jobs[j]]
    requires JobEvolves(db.jobs[j], post.jobs[j]) && JobOk(post.jobs[j])
    requires IsTerminal(post.jobs[j].status) ==>
               forall a | 0 <= a < |db.attempts| && db.attempts[a].jobId == j :: !Live(db.attempts[a])
    ensures Kept(db, post, j)
  {
  }
}
