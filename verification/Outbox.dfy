/**
 The transactional outbox with one worker: routing, retries with exponential backoff, terminal states.
 The table is the sequence of its rows in creation order and a row's id is its position.
 */
module Outbox {
  import opened Wrappers

  type Time = real

  const DEFAULT_MAX_RETRIES := 5

  datatype Status = PENDING | PROCESSING | DONE | FAILED

  datatype Row = Row(eventType: string, status: Status, retryCount: nat, maxRetries: int, nextRetryAt: Option<Time>)

  /** What a handler does with one event, and when the worker starts and finishes with it. */
  datatype Call = Call(ok: bool, start: Time, end: Time)

  /** The table together with the times at which handlers were called, row by row. */
  datatype Box = Box(rows: seq<Row>, calls: seq<seq<Time>>)

  function Pow2(n: nat): Time {
    if n == 0 then 1.0 else 2.0 * Pow2(n - 1)
  }

  // ---- routing ----

  /** The first registered key, in registration order, that the event type starts with. */
  function FirstPrefix(handlers: seq<string>, eventType: string): Option<string> {
    if handlers == [] then None
    else if handlers[0] <= eventType then Some(handlers[0])
    else FirstPrefix(handlers[1..], eventType)
  }

  /** The key of the handler that gets an event: an exact match wins over any prefix. */
  function Route(handlers: seq<string>, eventType: string): Option<string> {
    if eventType in handlers then Some(eventType) else FirstPrefix(handlers, eventType)
  }

  const DEFAULT_PREFIXES: seq<string> := ["asset.", "knowledge.", "job.", "model.", "config.", "operation."]

  // ---- one row ----

  predicate Due(row: Row, now: Time) {
    row.status == PENDING && (row.nextRetryAt.None? || row.nextRetryAt.value <= now)
  }

  /** The row after the worker is done with it. */
  function Settle(row: Row, handlers: seq<string>, call: Call): Row {
    if Route(handlers, row.eventType).None? then row.(status := FAILED)
    else if call.ok then row.(status := DONE)
    else
      var retryCount := row.retryCount + 1;
      if retryCount >= row.maxRetries then row.(status := FAILED, retryCount := retryCount)
      else row.(status := PENDING, retryCount := retryCount, nextRetryAt := Some(call.end + Pow2(retryCount)))
  }

  function SettleAt(box: Box, id: nat, handlers: seq<string>, call: Call): Box
    requires id < |box.rows| == |box.calls|
  {
    var called := Route(handlers, box.rows[id].eventType).Some?;
    Box(box.rows[id := Settle(box.rows[id], handlers, call)],
        if called then box.calls[id := box.calls[id] + [call.start]] else box.calls)
  }

  // ---- one batch ----

  /** Due rows below `n` in creation order. */
  function DueIds(rows: seq<Row>, now: Time, n: nat): (ids: seq<nat>)
    requires n <= |rows|
    ensures forall i | 0 <= i < |ids| :: ids[i] < n && Due(rows[ids[i]], now)
    ensures forall i, k | 0 <= i < k < |ids| :: ids[i] < ids[k]
  {
    if n == 0 then []
    else DueIds(rows, now, n - 1) + if Due(rows[n - 1], now) then [n - 1] else []
  }

  function Batch(rows: seq<Row>, now: Time, size: nat): (ids: seq<nat>)
    ensures forall i | 0 <= i < |ids| :: ids[i] < |rows| && Due(rows[ids[i]], now)
    ensures forall i, k | 0 <= i < k < |ids| :: ids[i] < ids[k]
  {
    var due := DueIds(rows, now, |rows|);
    if |due| <= size then due else due[..size]
  }

  ghost function SettleAll(box: Box, ids: seq<nat>, handlers: seq<string>, world: nat -> Call): (r: Box)
    requires |box.rows| == |box.calls| && forall i | 0 <= i < |ids| :: ids[i] < |box.rows|
    ensures |r.rows| == |r.calls| == |box.rows|
  {
    if ids == [] then box
    else
      var id := ids[|ids| - 1];
      SettleAt(SettleAll(box, ids[..|ids| - 1], handlers, world), id, handlers, world(id))
  }

  /** What the worker reports: events delivered or without a handler. */
  function CountFinished(rows: seq<Row>, ids: seq<nat>, handlers: seq<string>, world: nat -> Call): nat
    requires forall i | 0 <= i < |ids| :: ids[i] < |rows|
  {
    if ids == [] then 0
    else
      var id := ids[|ids| - 1];
      CountFinished(rows, ids[..|ids| - 1], handlers, world)
      + if Route(handlers, rows[id].eventType).None? || world(id).ok then 1 else 0
  }

  class Worker {
    var rows: seq<Row>
    var handlers: seq<string>
    ghost var calls: seq<seq<Time>>

    constructor ()
      ensures View() == Box([], []) && handlers == []
    {
      rows, handlers, calls := [], [], [];
    }

    ghost function View(): Box reads this { Box(rows, calls) }

    method RegisterHandler(key: string)
      modifies this`handlers
      ensures handlers == if key in old(handlers) then old(handlers) else old(handlers) + [key]
    {
      if key !in handlers { handlers := handlers + [key]; }
    }

    method Enqueue(eventType: string) returns (id: nat)
      modifies this`rows, this`calls
      ensures id == |old(rows)|
      ensures rows == old(rows) + [Row(eventType, PENDING, 0, DEFAULT_MAX_RETRIES, None)]
      ensures calls == old(calls) + [[]]
    {
      id := |rows|;
      rows := rows + [Row(eventType, PENDING, 0, DEFAULT_MAX_RETRIES, None)];
      calls := calls + [[]];
    }

    method ProcessBatch(now: Time, size: nat, world: nat -> Call) returns (count: nat)
      requires |rows| == |calls|
      modifies this`rows, this`calls
      ensures View() == SettleAll(old(View()), Batch(old(rows), now, size), handlers, world)
      ensures count == CountFinished(old(rows), Batch(old(rows), now, size), handlers, world)
    {
      var ids := Batch(rows, now, size);
      var fetched := rows;
      ghost var start := View();
      count := 0;
      for k := 0 to |ids|
        invariant |rows| == |calls| == |fetched|
        invariant View() == SettleAll(start, ids[..k], handlers, world)
        invariant count == CountFinished(fetched, ids[..k], handlers, world)
        invariant forall i | k <= i < |ids| :: rows[ids[i]] == fetched[ids[i]]
      {
        assert ids[..k + 1][..k] == ids[..k];
        var finished := ProcessRow(ids[k], fetched[ids[k]], world(ids[k]));
        if finished { count := count + 1; }
      }
      assert ids[..|ids|] == ids;
    }

    /** `row` is the row as it was fetched; it decides the routing and the new retry count. */
    method ProcessRow(id: nat, row: Row, call: Call) returns (finished: bool)
      requires id < |rows| == |calls| && rows[id] == row
      modifies this`rows, this`calls
      ensures View() == SettleAt(old(View()), id, handlers, call)
      ensures finished <==> Route(handlers, row.eventType).None? || call.ok
    {
      if rows[id].status == PENDING { rows := rows[id := rows[id].(status := PROCESSING)]; }
      if Route(handlers, row.eventType).None? {
        rows := rows[id := rows[id].(status := FAILED)];
        return true;
      }
      calls := calls[id := calls[id] + [call.start]];
      if call.ok {
        rows := rows[id := rows[id].(status := DONE)];
        return true;
      }
      var retryCount := row.retryCount + 1;
      if retryCount >= row.maxRetries {
        rows := rows[id := rows[id].(status := FAILED, retryCount := retryCount)];
      } else {
        rows := rows[id := rows[id].(status := PENDING, retryCount := retryCount,
                                     nextRetryAt := Some(call.end + Pow2(retryCount)))];
      }
      return false;
    }
  }
}
