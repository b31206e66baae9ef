/** The event table: appending, and paged queries with a cursor. */
module EventLog {
  import opened Wrappers

  datatype Event = Event(seqNo: nat, eventType: string, scopeType: string, scopeId: Option<string>,
                         resourceType: Option<string>)

  /** Absent and empty filters do not restrict a query. */
  datatype Filter = Filter(eventType: Option<string>, resourceType: Option<string>,
                           scopeType: Option<string>, scopeId: Option<string>)

  predicate Admits(wanted: Option<string>, actual: Option<string>) {
    wanted.None? || wanted.value == "" || actual == wanted
  }

  predicate Matches(e: Event, f: Filter) {
    && Admits(f.eventType, Some(e.eventType)) && Admits(f.resourceType, e.resourceType)
    && Admits(f.scopeType, Some(e.scopeType)) && Admits(f.scopeId, e.scopeId)
  }

  /** Events are committed in the order of their sequence numbers. */
  ghost predicate Ordered(log: seq<Event>) {
    forall i, k | 0 <= i < k < |log| :: log[i].seqNo < log[k].seqNo
  }

  /** The matching events above `after`, in order: `WHERE sequence > after AND ... ORDER BY sequence ASC`. */
  function Select(log: seq<Event>, after: int, f: Filter): seq<Event> {
    if log == [] then []
    else
      var last := log[|log| - 1];
      Select(log[..|log| - 1], after, f) + if last.seqNo > after && Matches(last, f) then [last] else []
  }

  datatype Page = Page(items: seq<Event>, hasMore: bool, lastSequence: int)

  /** Fetches one row more than a page to learn whether there is more. */
  function Query(log: seq<Event>, after: int, f: Filter, pageSize: nat): Page {
    var all := Select(log, after, f);
    var fetched := if |all| > pageSize + 1 then all[..pageSize + 1] else all;
    var items := if |fetched| > pageSize then fetched[..pageSize] else fetched;
    Page(items, |fetched| > pageSize, if items == [] then after else items[|items| - 1].seqNo)
  }

  class EventService {
    var log: seq<Event>
    var nextSequence: nat

    ghost predicate Valid() reads this {
      Ordered(log) && forall i | 0 <= i < |log| :: log[i].seqNo < nextSequence
    }

    constructor ()
      ensures Valid() && log == []
    {
      log, nextSequence := [], 1;
    }

    /** `skipped`: numbers the database sequence handed out to transactions that did not commit. */
    method Emit(eventType: string, scopeType: string, scopeId: Option<string>, resourceType: Option<string>,
                skipped: nat) returns (e: Event)
      requires Valid()
      modifies this
      ensures Valid() && log == old(log) + [e]
      ensures e == Event(old(nextSequence) + skipped, eventType, scopeType, scopeId, resourceType)
    {
      e := Event(nextSequence + skipped, eventType, scopeType, scopeId, resourceType);
      log := log + [e];
      nextSequence := nextSequence + skipped + 1;
    }
  }

  // ---- what a query returns ----

  lemma {:induction false} SelectIs(log: seq<Event>, after: int, f: Filter, e: Event)
    ensures e in Select(log, after, f) <==> e in log && e.seqNo > after && Matches(e, f)
  {
    if log != [] {
      var n := |log| - 1;
      assert log == log[..n] + [log[n]];
      SelectIs(log[..n], after, f, e);
    }
  }

  /** The condition of the query, filter by filter: an absent or empty one lets every event pass. */
  lemma QueryCondition(log: seq<Event>, after: int, f: Filter, e: Event)
    ensures e in Select(log, after, f) <==>
              && e in log && e.seqNo > after
              && (f.eventType in {None, Some("")} || f.eventType == Some(e.eventType))
              && (f.resourceType in {None, Some("")} || f.resourceType == e.resourceType)
              && (f.scopeType in {None, Some("")} || f.scopeType == Some(e.scopeType))
              && (f.scopeId in {None, Some("")} || f.scopeId == e.scopeId)
  {
    SelectIs(log, after, f, e);
  }

  lemma {:induction false} SelectOrdered(log: seq<Event>, after: int, f: Filter)
    requires Ordered(log)
    ensures Ordered(Select(log, after, f))
  {
    if log != [] {
      var n := |log| - 1;
      SelectOrdered(log[..n], after, f);
      var front, last := Select(log[..n], after, f), log[n];
      forall i | 0 <= i < |front| ensures front[i].seqNo < last.seqNo {
        assert front[i] in front;
        SelectIs(log[..n], after, f, front[i]);
        var k :| 0 <= k < n && log[..n][k] == front[i];
      }
    }
  }

  /** The matching events with `after < sequence <= upTo`, in log order. */
  function Between(log: seq<Event>, after: int, upTo: int, f: Filter): seq<Event> {
    if log == [] then []
    else
      var last := log[|log| - 1];
      Between(log[..|log| - 1], after, upTo, f) + if after < last.seqNo <= upTo && Matches(last, f) then [last] else []
  }

  lemma {:induction false} BetweenIs(log: seq<Event>, after: int, upTo: int, f: Filter, e: Event)
    ensures e in Between(log, after, upTo, f) <==> e in log && after < e.seqNo <= upTo && Matches(e, f)
  {
    if log != [] {
      var n := |log| - 1;
      assert log == log[..n] + [log[n]];
      BetweenIs(log[..n], after, upTo, f, e);
    }
  }

  lemma {:induction false} NothingBetween(log: seq<Event>, after: int, upTo: int, f: Filter)
    requires upTo <= after || forall i | 0 <= i < |log| :: log[i].seqNo <= after
    ensures Between(log, after, upTo, f) == []
  {
    if log != [] { NothingBetween(log[..|log| - 1], after, upTo, f); }
  }

  lemma {:induction false} BetweenJoins(log: seq<Event>, from: int, mid: int, upTo: int, f: Filter)
    requires Ordered(log) && from <= mid <= upTo
    ensures Between(log, from, mid, f) + Between(log, mid, upTo, f) == Between(log, from, upTo, f)
  {
    if log != [] {
      var n := |log| - 1;
      var last := log[n];
      BetweenJoins(log[..n], from, mid, upTo, f);
      if last.seqNo <= mid { NothingBetween(log[..n], mid, upTo, f); }
    }
  }

  lemma {:induction false} SelectIsBetween(log: seq<Event>, after: int, upTo: int, f: Filter)
    requires forall i | 0 <= i < |log| :: log[i].seqNo <= upTo
    ensures Select(log, after, f) == Between(log, after, upTo, f)
  {
    if log != [] { SelectIsBetween(log[..|log| - 1], after, upTo, f); }
  }

  lemma BetweenThenSelect(log: seq<Event>, after: int, cursor: int, f: Filter)
    requires Ordered(log) && after <= cursor
    ensures Between(log, after, cursor, f) + Select(log, cursor, f) == Select(log, after, f)
  {
    var top := if log == [] || log[|log| - 1].seqNo < cursor then cursor else log[|log| - 1].seqNo;
    SelectIsBetween(log, after, top, f);
    SelectIsBetween(log, cursor, top, f);
    BetweenJoins(log, after, cursor, top, f);
  }

  /** The first n selected events are those up to the n-th. */
  lemma PrefixIsBetween(log: seq<Event>, after: int, f: Filter, n: nat)
    requires Ordered(log) && 0 < n <= |Select(log, after, f)|
    ensures var all := Select(log, after, f);
            after < all[n - 1].seqNo && all[..n] == Between(log, after, all[n - 1].seqNo, f)
  {
    var all := Select(log, after, f);
    var cursor := all[n - 1].seqNo;
    assert all[n - 1] in all;
    SelectIs(log, after, f, all[n - 1]);
    SelectOrdered(log, after, f);
    var below, above := Between(log, after, cursor, f), Select(log, cursor, f);
    BetweenThenSelect(log, after, cursor, f);
    assert |below| >= n by {
      if |below| < n {
        assert above[n - 1 - |below|] == all[n - 1];
        SelectIs(log, cursor, f, all[n - 1]);
      }
    }
    assert |below| <= n by {
      if |below| > n {
        assert below[n] == all[n] && below[n] in below;
        BetweenIs(log, after, cursor, f, below[n]);
      }
    }
    assert all[..n] == below;
  }

  /** What a page delivers is the next stretch of the filtered log, all of it when nothing more is promised. */
  lemma PageIsNextStretch(log: seq<Event>, after: int, f: Filter, pageSize: nat, n: nat)
    requires Ordered(log) && n <= |Query(log, after, f, pageSize).items|
    ensures var items := Query(log, after, f, pageSize).items;
            var cursor := if n == 0 then after else items[n - 1].seqNo;
            after <= cursor && items[..n] == Between(log, after, cursor, f)
    ensures var page := Query(log, after, f, pageSize);
            && |page.items| <= pageSize
            && (page.hasMore <==> |Select(log, after, f)| > pageSize)
            && (!page.hasMore ==> page.items == Select(log, after, f))
  {
    var all, items := Select(log, after, f), Query(log, after, f, pageSize).items;
    assert items == all[..|items|];
    assert items[..n] == all[..n];
    if n == 0 {
      NothingBetween(log, after, after, f);
    } else {
      PrefixIsBetween(log, after, f, n);
      assert items[n - 1] == all[n - 1];
    }
  }

  /** The cursor a page returns: what it delivers lies up to there, and polling on from there completes the log. */
  lemma PageCursor(log: seq<Event>, after: int, f: Filter, pageSize: nat)
    requires Ordered(log)
    ensures var page := Query(log, after, f, pageSize);
            && after <= page.lastSequence
            && (page.items == [] ==> page.lastSequence == after)
            && (page.items != [] ==> page.lastSequence == page.items[|page.items| - 1].seqNo)
            && page.items == Between(log, after, page.lastSequence, f)
            && page.items + Select(log, page.lastSequence, f) == Select(log, after, f)
  {
    var page := Query(log, after, f, pageSize);
    PageIsNextStretch(log, after, f, pageSize, |page.items|);
    assert page.items[..|page.items|] == page.items;
    BetweenThenSelect(log, after, page.lastSequence, f);
  }

  /** A page holds the first pageSize matching events, or all of them when there are no more. */
  lemma PageSize(log: seq<Event>, after: int, f: Filter, pageSize: nat)
    ensures var all, items := Select(log, after, f), Query(log, after, f, pageSize).items;
            items == if |all| > pageSize then all[..pageSize] else all
  {
  }

  /** Page after page, each from the cursor of the one before. */
  function Pages(log: seq<Event>, after: int, f: Filter, pageSize: nat, n: nat): seq<Event>
    decreases n
  {
    if n == 0 then []
    else
      var page := Query(log, after, f, pageSize);
      page.items + Pages(log, page.lastSequence, f, pageSize, n - 1)
  }

  /** Polling with the returned cursor delivers the whole filtered log, in as many pages as it fills. */
  lemma {:induction false} PollingDeliversAll(log: seq<Event>, after: int, f: Filter, pageSize: nat, n: nat)
    requires Ordered(log) && n * pageSize >= |Select(log, after, f)|
    ensures Pages(log, after, f, pageSize, n) == Select(log, after, f)
    decreases n
  {
    hide Query, Select, Between;
    if n > 0 {
      var page := Query(log, after, f, pageSize);
      PageCursor(log, after, f, pageSize);
      PageSize(log, after, f, pageSize);
      var rest := Select(log, page.lastSequence, f);
      assert |page.items| + |rest| == |Select(log, after, f)|;
      assert n * pageSize == (n - 1) * pageSize + pageSize;
      PollingDeliversAll(log, page.lastSequence, f, pageSize, n - 1);
    }
  }
}
