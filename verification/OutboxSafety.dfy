/** Delivery guarantees of the outbox over whole runs. */
module OutboxSafety {
  import opened Wrappers
  import opened Outbox

  // ---- the invariant of one row and its handler calls ----

  /** The n-th call comes at least 2^n - 2 seconds after the first. */
  ghost predicate Spaced(calls: seq<Time>) {
    forall n | 1 <= n <= |calls| :: calls[n - 1] >= calls[0] + Pow2(n) - 2.0
  }

  ghost predicate RowOk(row: Row, calls: seq<Time>) {
    && row.maxRetries >= 1
    && row.status != PROCESSING
    && |calls| == row.retryCount + (if row.status == DONE then 1 else 0)
    && |calls| <= row.maxRetries
    && (row.status == PENDING ==> row.retryCount < row.maxRetries)
    && Spaced(calls)
    && (row.status == PENDING && row.retryCount > 0 ==>
          row.nextRetryAt.Some? && row.nextRetryAt.value >= calls[|calls| - 1] + Pow2(row.retryCount))
  }

  ghost predicate Inv(box: Box) {
    |box.rows| == |box.calls| && forall i | 0 <= i < |box.rows| :: RowOk(box.rows[i], box.calls[i])
  }

  /** Finished rows never change again and their handler is not called again. */
  ghost predicate Evolves(was: Box, post: Box) {
    && |was.rows| == |was.calls| <= |post.rows| == |post.calls|
    && forall i | 0 <= i < |was.rows| ::
         && was.calls[i] <= post.calls[i]
         && (was.rows[i].status in {DONE, FAILED} ==> post.rows[i] == was.rows[i] && post.calls[i] == was.calls[i])
  }

  /** The clock: nothing starts before the batch was fetched, and nothing ends before it starts. */
  ghost predicate Timely(world: nat -> Call, now: Time) {
    forall id :: now <= world(id).start <= world(id).end
  }

  lemma SettleRowOk(row: Row, calls: seq<Time>, handlers: seq<string>, call: Call, now: Time)
    requires RowOk(row, calls) && Due(row, now) && now <= call.start <= call.end
    ensures var called := Route(handlers, row.eventType).Some?;
            RowOk(Settle(row, handlers, call), if called then calls + [call.start] else calls)
  {
  }

  // ---- the termination measure ----

  /** Retries left over all pending rows. */
  ghost function Work(rows: seq<Row>): int {
    if rows == [] then 0
    else
      var last := rows[|rows| - 1];
      Work(rows[..|rows| - 1]) + if last.status == PENDING then last.maxRetries - last.retryCount else 0
  }

  lemma {:induction false} WorkAt(rows: seq<Row>, id: nat, row: Row)
    requires id < |rows|
    ensures Work(rows[id := row]) == Work(rows)
            - (if rows[id].status == PENDING then rows[id].maxRetries - rows[id].retryCount else 0)
            + (if row.status == PENDING then row.maxRetries - row.retryCount else 0)
  {
    var n := |rows| - 1;
    if id < n {
      assert rows[id := row][..n] == rows[..n][id := row];
      WorkAt(rows[..n], id, row);
    } else {
      assert rows[id := row][..n] == rows[..n];
    }
  }

  lemma {:induction false} WorkIsNatural(box: Box)
    requires Inv(box)
    ensures Work(box.rows) >= 0
    decreases |box.rows|
  {
    if box.rows != [] {
      var n := |box.rows| - 1;
      assert RowOk(box.rows[n], box.calls[n]);
      WorkIsNatural(Box(box.rows[..n], box.calls[..n]));
    }
  }

  // ---- batches ----

  lemma SettleAtKeepsInv(box: Box, id: nat, handlers: seq<string>, call: Call, now: Time)
    requires Inv(box) && id < |box.rows| && Due(box.rows[id], now) && now <= call.start <= call.end
    ensures Inv(SettleAt(box, id, handlers, call))
  {
    SettleRowOk(box.rows[id], box.calls[id], handlers, call, now);
    hide RowOk, Settle, Due, Route;
  }

  lemma SettleAtKeeps(box: Box, id: nat, handlers: seq<string>, call: Call, now: Time)
    requires Inv(box) && id < |box.rows| && Due(box.rows[id], now) && now <= call.start <= call.end
    ensures var post := SettleAt(box, id, handlers, call);
            Inv(post) && Evolves(box, post) && Work(post.rows) < Work(box.rows)
  {
    SettleAtKeepsInv(box, id, handlers, call, now);
    WorkAt(box.rows, id, Settle(box.rows[id], handlers, call));
    assert RowOk(box.rows[id], box.calls[id]);
    hide Route, Work;
  }

  lemma EvolvesTransitive(first: Box, second: Box, third: Box)
    requires Evolves(first, second) && Evolves(second, third)
    ensures Evolves(first, third)
  {
  }

  ghost predicate Progress(box: Box, post: Box, n: nat) {
    Inv(post) && Evolves(box, post) && Work(post.rows) <= Work(box.rows) - n
  }

  lemma ProgressStep(box: Box, before: Box, n: nat, id: nat, handlers: seq<string>, call: Call, now: Time)
    requires Progress(box, before, n) && id < |box.rows|
    requires before.rows[id] == box.rows[id] && Due(box.rows[id], now) && now <= call.start <= call.end
    ensures Progress(box, SettleAt(before, id, handlers, call), n + 1)
  {
    SettleAtKeeps(before, id, handlers, call, now);
    EvolvesTransitive(box, before, SettleAt(before, id, handlers, call));
  }

  /** Rows that the batch has not reached yet are untouched. */
  lemma {:induction false} SettleAllFrame(box: Box, ids: seq<nat>, handlers: seq<string>, world: nat -> Call, id: nat)
    requires |box.rows| == |box.calls| && id < |box.rows|
    requires forall i | 0 <= i < |ids| :: ids[i] < id
    ensures SettleAll(box, ids, handlers, world).rows[id] == box.rows[id]
  {
    if ids != [] { SettleAllFrame(box, ids[..|ids| - 1], handlers, world, id); }
  }

  lemma {:induction false} SettleAllKeeps(box: Box, ids: seq<nat>, handlers: seq<string>, world: nat -> Call, now: Time)
    requires Inv(box) && Timely(world, now)
    requires forall i | 0 <= i < |ids| :: ids[i] < |box.rows| && Due(box.rows[ids[i]], now)
    requires forall i, k | 0 <= i < k < |ids| :: ids[i] < ids[k]
    ensures Progress(box, SettleAll(box, ids, handlers, world), |ids|)
  {
    if ids != [] {
      var n := |ids| - 1;
      SettleAllKeeps(box, ids[..n], handlers, world, now);
      SettleAllFrame(box, ids[..n], handlers, world, ids[n]);
      ProgressStep(box, SettleAll(box, ids[..n], handlers, world), n, ids[n], handlers, world(ids[n]), now);
    }
  }

  // ---- runs ----

  datatype Action =
    /** `maxRetries` is the column's default, DEFAULT_MAX_RETRIES, unless the table is set up otherwise. */
    | Enqueue(eventType: string, maxRetries: int)
    | ProcessBatch(handlers: seq<string>, now: Time, size: nat, world: nat -> Call)

  ghost function After(box: Box, action: Action): Box
    requires |box.rows| == |box.calls|
  {
    match action
    case Enqueue(eventType, maxRetries) =>
      Box(box.rows + [Row(eventType, PENDING, 0, maxRetries, None)], box.calls + [[]])
    case ProcessBatch(handlers, now, size, world) =>
      SettleAll(box, Batch(box.rows, now, size), handlers, world)
  }

  ghost predicate Step(box: Box, action: Action, post: Box) {
    && |box.rows| == |box.calls| && post == After(box, action)
    && (action.ProcessBatch? ==> Timely(action.world, action.now))
    && (action.Enqueue? ==> action.maxRetries >= 1)
  }

  ghost predicate IsRun(states: seq<Box>, actions: seq<Action>) {
    && |states| == |actions| + 1 && states[0] == Box([], [])
    && forall i | 0 <= i < |actions| :: Step(states[i], actions[i], states[i + 1])
  }

  lemma StepKeeps(box: Box, action: Action, post: Box)
    requires Inv(box) && Step(box, action, post)
    ensures Inv(post) && Evolves(box, post)
    ensures action.ProcessBatch? ==>
              Work(post.rows) <= Work(box.rows) - |Batch(box.rows, action.now, action.size)|
  {
    match action {
      case Enqueue(_, _) =>
      case ProcessBatch(handlers, now, size, world) =>
        SettleAllKeeps(box, Batch(box.rows, now, size), handlers, world, now);
    }
  }

  /** DONE and FAILED are final, and every reachable row satisfies `RowOk`. */
  lemma {:induction false} RunIsSafe(states: seq<Box>, actions: seq<Action>, i: nat, k: nat)
    requires IsRun(states, actions) && i <= k < |states|
    ensures Inv(states[i]) && Inv(states[k]) && Evolves(states[i], states[k])
    decreases k
  {
    if k > 0 {
      var before := if i < k then i else k - 1;
      RunIsSafe(states, actions, before, k - 1);
      assert Step(states[k - 1], actions[k - 1], states[k]);
      StepKeeps(states[k - 1], actions[k - 1], states[k]);
      EvolvesTransitive(states[before], states[k - 1], states[k]);
    }
  }

  /** Handler calls on an event, counted and timed, in every reachable state. */
  lemma CallsAreBounded(states: seq<Box>, actions: seq<Action>, k: nat, id: nat)
    requires IsRun(states, actions) && k < |states| && id < |states[k].rows|
    ensures |states[k].rows| == |states[k].calls|
    ensures var row, calls := states[k].rows[id], states[k].calls[id];
            && row.status != PROCESSING
            && |calls| == row.retryCount + (if row.status == DONE then 1 else 0)
            && |calls| <= row.maxRetries
            && forall n | 1 <= n <= |calls| :: calls[n - 1] >= calls[0] + Pow2(n) - 2.0
  {
    RunIsSafe(states, actions, k, k);
    assert RowOk(states[k].rows[id], states[k].calls[id]);
  }

  /** Every batch takes at least one from the work left per event it processes, so retries run out. */
  lemma BatchesTerminate(states: seq<Box>, actions: seq<Action>, k: nat)
    requires IsRun(states, actions) && k < |actions| && actions[k].ProcessBatch?
    ensures var ids := Batch(states[k].rows, actions[k].now, actions[k].size);
            0 <= Work(states[k + 1].rows) <= Work(states[k].rows) - |ids|
  {
    RunIsSafe(states, actions, k, k + 1);
    assert Step(states[k], actions[k], states[k + 1]);
    StepKeeps(states[k], actions[k], states[k + 1]);
    WorkIsNatural(states[k + 1]);
  }

  // ---- what a batch takes, and what it does to each row ----

  lemma {:induction false} DueIdsAreAll(rows: seq<Row>, now: Time, n: nat, id: nat)
    requires n <= |rows|
    ensures id in DueIds(rows, now, n) <==> id < n && Due(rows[id], now)
  {
    if n > 0 { DueIdsAreAll(rows, now, n - 1, id); }
  }

  function CountDue(rows: seq<Row>, now: Time): nat {
    if rows == [] then 0
    else CountDue(rows[..|rows| - 1], now) + if Due(rows[|rows| - 1], now) then 1 else 0
  }

  lemma {:induction false} DueIdsCount(rows: seq<Row>, now: Time, n: nat)
    requires n <= |rows|
    ensures |DueIds(rows, now, n)| == CountDue(rows[..n], now)
  {
    if n > 0 {
      DueIdsCount(rows, now, n - 1);
      assert rows[..n][..n - 1] == rows[..n - 1];
    }
  }

  lemma LeftOutIsLater(due: seq<nat>, size: nat, id: nat)
    requires size < |due| && id in due && id !in due[..size]
    requires forall i, k | 0 <= i < k < |due| :: due[i] < due[k]
    ensures forall k | k in due[..size] :: k < id
  {
    var p :| 0 <= p < |due| && due[p] == id;
    assert forall q | 0 <= q < size :: due[..size][q] == due[q] && due[q] in due[..size];
  }

  /** A batch takes as many due rows as it may, the oldest first. */
  lemma BatchTakesOldest(rows: seq<Row>, now: Time, size: nat)
    ensures var ids := Batch(rows, now, size);
            && |ids| == (if CountDue(rows, now) < size then CountDue(rows, now) else size)
            && (forall id | id in ids :: id < |rows| && Due(rows[id], now))
            && forall id: nat | id < |rows| && Due(rows[id], now) && id !in ids ::
                 |ids| == size && forall k | k in ids :: k < id
  {
    var due, ids := DueIds(rows, now, |rows|), Batch(rows, now, size);
    DueIdsCount(rows, now, |rows|);
    assert rows[..|rows|] == rows;
    forall id: nat | id < |rows| && Due(rows[id], now) && id !in ids
      ensures |ids| == size && forall k | k in ids :: k < id
    {
      DueIdsAreAll(rows, now, |rows|, id);
      LeftOutIsLater(due, size, id);
    }
  }

  /** A row is due while it is pending and its retry time, if it has one, has come. */
  lemma DueExactly(row: Row, now: Time)
    ensures Due(row, now) <==>
            row.status == PENDING && match row.nextRetryAt case None => true case Some(at) => at <= now
  {
  }

  /**
   What the worker makes of a row: without a handler it fails; delivered it is done; otherwise one more try is
   counted and it fails at the limit, or waits 2^n seconds after its n-th failure.
   */
  ghost predicate Settled(was: Row, post: Row, handled: bool, call: Call) {
    && post.eventType == was.eventType && post.maxRetries == was.maxRetries
    && if !handled then post.status == FAILED && post.retryCount == was.retryCount
       else if call.ok then post.status == DONE && post.retryCount == was.retryCount
       else
         && post.retryCount == was.retryCount + 1
         && if was.retryCount + 1 < was.maxRetries
            then post.status == PENDING && post.nextRetryAt == Some(call.end + Pow2(was.retryCount + 1))
            else post.status == FAILED
  }

  lemma {:induction false} BatchSettles(box: Box, ids: seq<nat>, handlers: seq<string>, world: nat -> Call, id: nat)
    requires |box.rows| == |box.calls| && id < |box.rows|
    requires forall i | 0 <= i < |ids| :: ids[i] < |box.rows|
    requires forall i, k | 0 <= i < k < |ids| :: ids[i] < ids[k]
    ensures var post, handled := SettleAll(box, ids, handlers, world), Route(handlers, box.rows[id].eventType).Some?;
            if id in ids
            then Settled(box.rows[id], post.rows[id], handled, world(id))
                 && post.calls[id] == box.calls[id] + if handled then [world(id).start] else []
            else post.rows[id] == box.rows[id] && post.calls[id] == box.calls[id]
  {
    if ids != [] {
      var n := |ids| - 1;
      assert ids == ids[..n] + [ids[n]];
      BatchSettles(box, ids[..n], handlers, world, id);
      if id == ids[n] { SettleAllFrame(box, ids[..n], handlers, world, id); }
    }
  }

  /**
   `process_batch` settles exactly the due rows it took, oldest first; and when no more rows are due than it may
   take, every due row has had its handler called or has failed for want of one, so none is due any longer.
   */
  lemma BatchEmptiesTheQueue(box: Box, handlers: seq<string>, now: Time, size: nat, world: nat -> Call, id: nat)
    requires Inv(box) && Timely(world, now) && id < |box.rows| && Due(box.rows[id], now)
    requires CountDue(box.rows, now) <= size
    ensures var post, handled := After(box, ProcessBatch(handlers, now, size, world)),
                                 Route(handlers, box.rows[id].eventType).Some?;
            && Settled(box.rows[id], post.rows[id], handled, world(id))
            && post.calls[id] == box.calls[id] + (if handled then [world(id).start] else [])
            && !Due(post.rows[id], now)
  {
    var ids := Batch(box.rows, now, size);
    DueIdsCount(box.rows, now, |box.rows|);
    assert box.rows[..|box.rows|] == box.rows;
    DueIdsAreAll(box.rows, now, |box.rows|, id);
    BatchSettles(box, ids, handlers, world, id);
    Pow2Positive(box.rows[id].retryCount + 1);
  }

  lemma {:induction false} Pow2Positive(n: nat)
    ensures Pow2(n) >= 1.0
  {
    if n > 0 { Pow2Positive(n - 1); }
  }

  /** The delay doubles: 1, 2, 4, ... */
  lemma Pow2Doubles(n: nat)
    ensures Pow2(0) == 1.0 && Pow2(n + 1) == Pow2(n) + Pow2(n)
  {
  }

  /** With a full batch too: a row the batch took is settled, a row it left is untouched. */
  lemma BatchSettlesWhatItTook(box: Box, handlers: seq<string>, now: Time, size: nat, world: nat -> Call, id: nat)
    requires |box.rows| == |box.calls| && id < |box.rows|
    ensures var post, handled := After(box, ProcessBatch(handlers, now, size, world)),
                                 Route(handlers, box.rows[id].eventType).Some?;
            if id in Batch(box.rows, now, size)
            then Settled(box.rows[id], post.rows[id], handled, world(id))
                 && post.calls[id] == box.calls[id] + if handled then [world(id).start] else []
            else post.rows[id] == box.rows[id] && post.calls[id] == box.calls[id]
  {
    BatchSettles(box, Batch(box.rows, now, size), handlers, world, id);
  }

  predicate Finished(rows: seq<Row>, id: nat, handlers: seq<string>, world: nat -> Call) {
    id < |rows| && (Route(handlers, rows[id].eventType).None? || world(id).ok)
  }

  /** Rows of the batch that are finished without a failed call. */
  function FinishedIds(rows: seq<Row>, ids: seq<nat>, handlers: seq<string>, world: nat -> Call): set<nat> {
    set id | id in ids && Finished(rows, id, handlers, world)
  }

  lemma FinishedOneMore(rows: seq<Row>, ids: seq<nat>, id: nat, handlers: seq<string>, world: nat -> Call)
    ensures FinishedIds(rows, ids + [id], handlers, world) ==
            FinishedIds(rows, ids, handlers, world) + if Finished(rows, id, handlers, world) then {id} else {}
  {
  }

  /** The reported count is their number. */
  lemma {:induction false} CountIsNumber(rows: seq<Row>, ids: seq<nat>, handlers: seq<string>, world: nat -> Call)
    requires forall i | 0 <= i < |ids| :: ids[i] < |rows|
    requires forall i, k | 0 <= i < k < |ids| :: ids[i] < ids[k]
    ensures CountFinished(rows, ids, handlers, world) == |FinishedIds(rows, ids, handlers, world)|
  {
    if ids == [] {
      assert FinishedIds(rows, ids, handlers, world) == {};
    } else {
      var n := |ids| - 1;
      assert ids == ids[..n] + [ids[n]];
      CountIsNumber(rows, ids[..n], handlers, world);
      FinishedOneMore(rows, ids[..n], ids[n], handlers, world);
      assert ids[n] !in ids[..n];
    }
  }

  // ---- routing ----

  /** An exact key wins; otherwise the earliest registered key that the event type starts with. */
  lemma {:induction false} RouteExactly(handlers: seq<string>, eventType: string)
    ensures eventType in handlers ==> Route(handlers, eventType) == Some(eventType)
    ensures Route(handlers, eventType).None? <==> forall h | h in handlers :: !(h <= eventType)
    ensures eventType !in handlers && Route(handlers, eventType).Some? ==>
              exists i :: 0 <= i < |handlers| && Route(handlers, eventType) == Some(handlers[i])
                          && handlers[i] <= eventType && forall k | 0 <= k < i :: !(handlers[k] <= eventType)
  {
    FirstPrefixExactly(handlers, eventType);
  }

  lemma {:induction false} FirstPrefixExactly(handlers: seq<string>, eventType: string)
    ensures FirstPrefix(handlers, eventType).None? <==> forall h | h in handlers :: !(h <= eventType)
    ensures FirstPrefix(handlers, eventType).Some? ==>
              exists i :: 0 <= i < |handlers| && FirstPrefix(handlers, eventType) == Some(handlers[i])
                          && handlers[i] <= eventType && forall k | 0 <= k < i :: !(handlers[k] <= eventType)
  {
    if handlers != [] {
      FirstPrefixExactly(handlers[1..], eventType);
      assert handlers == [handlers[0]] + handlers[1..];
      assert handlers[0] in handlers && forall h | h in handlers[1..] :: h in handlers;
      assert forall h | h in handlers :: h == handlers[0] || h in handlers[1..];
      if !(handlers[0] <= eventType) && FirstPrefix(handlers, eventType).Some? {
        var i :| 0 <= i < |handlers[1..]| && FirstPrefix(handlers[1..], eventType) == Some(handlers[1..][i])
                 && handlers[1..][i] <= eventType && forall k | 0 <= k < i :: !(handlers[1..][k] <= eventType);
        assert forall k | 0 <= k < i + 1 :: !(handlers[k] <= eventType) by {
          forall k | 0 <= k < i + 1 ensures !(handlers[k] <= eventType) {
            if k > 0 { assert handlers[k] == handlers[1..][k - 1]; }
          }
        }
        assert handlers[i + 1] == handlers[1..][i];
      }
    }
  }

  // ---- routing of the default handlers ----

  /** At most one default prefix fits an event type, so registration order does not matter. */
  lemma DefaultRouteIsUnique(eventType: string, prefix: string, order: seq<string>)
    requires prefix in DEFAULT_PREFIXES && prefix <= eventType
    requires forall p :: p in order <==> p in DEFAULT_PREFIXES
    ensures Route(order, eventType) == Some(prefix)
  {
    FirstPrefixIs(order, eventType, prefix);
  }

  lemma {:induction false} FirstPrefixIs(order: seq<string>, eventType: string, prefix: string)
    requires prefix in order && prefix in DEFAULT_PREFIXES && prefix <= eventType
    requires forall p | p in order :: p in DEFAULT_PREFIXES
    ensures FirstPrefix(order, eventType) == Some(prefix)
    ensures eventType in order ==> eventType == prefix
  {
    PrefixesDiffer(prefix, eventType);
    if order[0] != prefix {
      assert prefix in order[1..];
      assert order[0] in order;
      FirstPrefixIs(order[1..], eventType, prefix);
    }
  }

  lemma PrefixesDiffer(prefix: string, eventType: string)
    requires prefix in DEFAULT_PREFIXES && prefix <= eventType
    ensures forall p | p in DEFAULT_PREFIXES && p <= eventType :: p == prefix
  {
    forall p | p in DEFAULT_PREFIXES && p <= eventType ensures p == prefix {
      assert p[0] == eventType[0] == prefix[0];
    }
  }
}
