/** The meeting agent's task table: rows are only appended, the newest row of an id counts. */
module TaskTable {
  import opened Wrappers

  /** A scan returns at most this many rows. */
  const SCAN_LIMIT := 1000

  /** `updated` and `started` are the ISO timestamps, compared as the table compares them; `rest` the other columns. */
  datatype Row = Row(id: string, updated: int, started: int, rest: map<string, string>)
  datatype Fields = Fields(started: Option<int>, rest: map<string, string>)

  /** What a scan may return: the rows in some order, or some of them when there are too many. */
  ghost predicate Answers(rows: seq<Row>, scan: seq<Row>) {
    if |rows| <= SCAN_LIMIT then multiset(scan) == multiset(rows)
    else |scan| == SCAN_LIMIT && multiset(scan) <= multiset(rows)
  }

  // ---- listing ----

  /** The `latest` dictionary, which remembers the order in which its keys came. */
  datatype Dict = Dict(keys: seq<string>, rows: map<string, Row>)

  function Noted(d: Dict, r: Row): Dict {
    if r.id == "" then d
    else if r.id !in d.rows then Dict(d.keys + [r.id], d.rows[r.id := r])
    else if r.updated > d.rows[r.id].updated then d.(rows := d.rows[r.id := r])
    else d
  }

  function Latest(scan: seq<Row>): Dict {
    if scan == [] then Dict([], map[]) else Noted(Latest(scan[..|scan| - 1]), scan[|scan| - 1])
  }

  function Values(keys: seq<string>, rows: map<string, Row>): (r: seq<Row>)
    requires forall k | k in keys :: k in rows
    ensures |r| == |keys| && forall i | 0 <= i < |keys| :: r[i] == rows[keys[i]]
  {
    if keys == [] then [] else Values(keys[..|keys| - 1], rows) + [rows[keys[|keys| - 1]]]
  }

  /** `r` goes behind everything that did not start before it. */
  function Inserted(sorted: seq<Row>, r: Row): seq<Row> {
    if sorted != [] && sorted[|sorted| - 1].started < r.started
    then Inserted(sorted[..|sorted| - 1], r) + [sorted[|sorted| - 1]]
    else sorted + [r]
  }

  /** `sorted(..., key = started_at, reverse = True)`: ties keep their order. */
  function SortedDesc(rows: seq<Row>): seq<Row> {
    if rows == [] then [] else Inserted(SortedDesc(rows[..|rows| - 1]), rows[|rows| - 1])
  }

  ghost predicate Descending(rows: seq<Row>) {
    forall i, k | 0 <= i < k < |rows| :: rows[i].started >= rows[k].started
  }

  ghost predicate DistinctIds(rows: seq<Row>) {
    forall i, k | 0 <= i < k < |rows| :: rows[i].id != rows[k].id
  }

  lemma {:induction false} InsertedHas(sorted: seq<Row>, r: Row, t: Row)
    ensures t in Inserted(sorted, r) <==> t in sorted || t == r
  {
    if sorted != [] {
      assert sorted == sorted[..|sorted| - 1] + [sorted[|sorted| - 1]];
      InsertedHas(sorted[..|sorted| - 1], r, t);
    }
  }

  lemma {:induction false} InsertedSorts(sorted: seq<Row>, r: Row)
    requires Descending(sorted)
    ensures Descending(Inserted(sorted, r))
  {
    if sorted != [] && sorted[|sorted| - 1].started < r.started {
      var n := |sorted| - 1;
      InsertedSorts(sorted[..n], r);
      var front := Inserted(sorted[..n], r);
      forall i | 0 <= i < |front| ensures front[i].started >= sorted[n].started {
        assert front[i] in front;
        InsertedHas(sorted[..n], r, front[i]);
      }
    }
  }

  lemma {:induction false} InsertedDistinct(sorted: seq<Row>, r: Row)
    requires DistinctIds(sorted) && forall t | t in sorted :: t.id != r.id
    ensures DistinctIds(Inserted(sorted, r))
  {
    if sorted != [] && sorted[|sorted| - 1].started < r.started {
      var n := |sorted| - 1;
      InsertedDistinct(sorted[..n], r);
      var front := Inserted(sorted[..n], r);
      forall i | 0 <= i < |front| ensures front[i].id != sorted[n].id {
        assert front[i] in front;
        InsertedHas(sorted[..n], r, front[i]);
      }
    }
  }

  lemma {:induction false} SortedHas(rows: seq<Row>, t: Row)
    ensures t in SortedDesc(rows) <==> t in rows
  {
    if rows != [] {
      var n := |rows| - 1;
      assert rows == rows[..n] + [rows[n]];
      SortedHas(rows[..n], t);
      InsertedHas(SortedDesc(rows[..n]), rows[n], t);
    }
  }

  lemma {:induction false} SortedDescSorts(rows: seq<Row>)
    requires DistinctIds(rows)
    ensures Descending(SortedDesc(rows)) && DistinctIds(SortedDesc(rows))
  {
    if rows != [] {
      var n := |rows| - 1;
      var front := SortedDesc(rows[..n]);
      SortedDescSorts(rows[..n]);
      InsertedSorts(front, rows[n]);
      forall t | t in front ensures t.id != rows[n].id { SortedHas(rows[..n], t); }
      InsertedDistinct(front, rows[n]);
    }
  }

  /** The row of that id with the greatest timestamp, the earliest of equals. */
  function Newest(scan: seq<Row>, id: string): (found: Option<Row>)
    ensures found.Some? ==> found.value in scan && found.value.id == id
    ensures found.Some? ==> forall r | r in scan && r.id == id :: r.updated <= found.value.updated
    ensures found.None? ==> forall r | r in scan :: r.id != id
  {
    if scan == [] then None
    else
      var n := |scan| - 1;
      var rest := Newest(scan[..n], id);
      assert forall r | r in scan :: r in scan[..n] || r == scan[n];
      if scan[n].id == id && (rest.None? || scan[n].updated > rest.value.updated) then Some(scan[n]) else rest
  }

  /** Each key once, and the keys of the map. */
  ghost predicate Keyed(d: Dict) {
    && (forall i, k | 0 <= i < k < |d.keys| :: d.keys[i] != d.keys[k])
    && (forall id :: id in d.keys <==> id in d.rows)
  }

  lemma {:induction false} LatestKeyed(scan: seq<Row>)
    ensures Keyed(Latest(scan))
  {
    if scan != [] { LatestKeyed(scan[..|scan| - 1]); }
  }

  lemma {:induction false} LatestIs(scan: seq<Row>, id: string)
    ensures var d := Latest(scan);
            && (id in d.rows <==> id != "" && Newest(scan, id).Some?)
            && (id in d.rows ==> d.rows[id] == Newest(scan, id).value)
  {
    if scan != [] { LatestIs(scan[..|scan| - 1], id); }
  }

  function Listed(scan: seq<Row>): seq<Row> {
    var d := Latest(scan);
    LatestKeyed(scan);
    SortedDesc(Values(d.keys, d.rows))
  }

  /** `get_task`: the first listed task of that id. */
  function Found(tasks: seq<Row>, id: string): (r: Option<Row>)
    ensures r.Some? ==> r.value in tasks && r.value.id == id
    ensures r.None? ==> forall t | t in tasks :: t.id != id
  {
    if tasks == [] then None else if tasks[0].id == id then Some(tasks[0]) else Found(tasks[1..], id)
  }

  function Merged(current: Row, f: Fields, now: int): Row {
    Row(current.id, now, if f.started.Some? then f.started.value else current.started, current.rest + f.rest)
  }

  class TaskManager {
    var rows: seq<Row>

    constructor ()
      ensures rows == []
    {
      rows := [];
    }

    method CreateTask(id: string, rest: map<string, string>, now: int) returns (row: Row)
      modifies this
      ensures row == Row(id, now, now, rest) && rows == old(rows) + [row]
    {
      row := Row(id, now, now, rest);
      rows := rows + [row];
    }

    /** `scan`: what the table answers. */
    method ListTasks(scan: seq<Row>) returns (tasks: seq<Row>)
      ensures tasks == Listed(scan)
    {
      var latest: map<string, Row>, keys: seq<string> := map[], [];
      for i := 0 to |scan|
        invariant Dict(keys, latest) == Latest(scan[..i])
      {
        assert scan[..i + 1][..i] == scan[..i];
        var r := scan[i];
        if r.id == "" { continue; }
        if r.id !in latest || r.updated > latest[r.id].updated {
          if r.id !in latest { keys := keys + [r.id]; }
          latest := latest[r.id := r];
        }
      }
      assert scan[..|scan|] == scan;
      LatestKeyed(scan);
      tasks := SortedDesc(Values(keys, latest));
    }

    method GetTask(id: string, scan: seq<Row>) returns (task: Option<Row>)
      ensures task == Found(Listed(scan), id)
    {
      var tasks := ListTasks(scan);
      var i := 0;
      while i < |tasks|
        invariant i <= |tasks|
        invariant Found(tasks, id) == Found(tasks[i..], id)
      {
        if tasks[i].id == id { return Some(tasks[i]); }
        assert tasks[i..][1..] == tasks[i + 1..];
        i := i + 1;
      }
      return None;
    }

    method UpdateTask(id: string, f: Fields, now: int, scan: seq<Row>) returns (row: Option<Row>)
      modifies this
      ensures var current := Found(Listed(scan), id);
              if current.None? then row.None? && rows == old(rows)
              else row == Some(Merged(current.value, f, now)) && rows == old(rows) + [row.value]
    {
      var current := GetTask(id, scan);
      if current.None? { return None; }
      row := Some(Merged(current.value, f, now));
      rows := rows + [row.value];
    }
  }

  // ---- the map behind the log ----

  lemma ListedHas(scan: seq<Row>, t: Row)
    ensures t in Listed(scan) <==> t.id != "" && Newest(scan, t.id) == Some(t)
  {
    var d := Latest(scan);
    LatestKeyed(scan);
    var values := Values(d.keys, d.rows);
    SortedHas(values, t);
    LatestIs(scan, t.id);
    if t in values {
      var i :| 0 <= i < |values| && values[i] == t;
      LatestIs(scan, d.keys[i]);
    }
    if t.id in d.rows {
      var i :| 0 <= i < |d.keys| && d.keys[i] == t.id;
      assert values[i] in values;
    }
  }

  /** A listing holds the newest row of each id once, latest start first. */
  lemma ListedIs(scan: seq<Row>)
    ensures var tasks := Listed(scan);
            && Descending(tasks) && DistinctIds(tasks)
            && (forall t :: t in tasks <==> t.id != "" && Newest(scan, t.id) == Some(t))
  {
    var d := Latest(scan);
    LatestKeyed(scan);
    var values := Values(d.keys, d.rows);
    forall i | 0 <= i < |values| ensures values[i].id == d.keys[i] { LatestIs(scan, d.keys[i]); }
    SortedDescSorts(values);
    forall t ensures t in Listed(scan) <==> t.id != "" && Newest(scan, t.id) == Some(t) { ListedHas(scan, t); }
  }

  /** Timestamps strictly increase along the log. */
  ghost predicate Increasing(log: seq<Row>) {
    forall i, k | 0 <= i < k < |log| :: log[i].updated < log[k].updated
  }

  /** The map the log stands for: the last write of each id. Rows without an id are never tasks. */
  function Tasks(log: seq<Row>): map<string, Row> {
    if log == [] then map[]
    else
      var last := log[|log| - 1];
      if last.id == "" then Tasks(log[..|log| - 1]) else Tasks(log[..|log| - 1])[last.id := last]
  }

  lemma {:induction false} TasksIs(log: seq<Row>, id: string)
    requires Increasing(log)
    ensures id in Tasks(log) <==> id != "" && exists r | r in log :: r.id == id
    ensures id in Tasks(log) ==>
              var t := Tasks(log)[id];
              t in log && t.id == id && forall r | r in log && r.id == id && r != t :: r.updated < t.updated
  {
    if log != [] {
      var n := |log| - 1;
      TasksIs(log[..n], id);
      assert forall r | r in log :: r in log[..n] || r == log[n];
      assert forall r | r in log[..n] :: r.updated < log[n].updated;
    }
  }

  /** Whatever order the scan comes in, an id's newest row is its last write. */
  lemma NewestIsLastWrite(log: seq<Row>, scan: seq<Row>, id: string)
    requires Increasing(log) && |log| <= SCAN_LIMIT && Answers(log, scan) && id != ""
    ensures Newest(scan, id) == if id in Tasks(log) then Some(Tasks(log)[id]) else None
  {
    TasksIs(log, id);
    forall r ensures r in scan <==> r in log {
      assert r in scan <==> r in multiset(scan);
      assert r in log <==> r in multiset(log);
    }
    var found := Newest(scan, id);
    if id in Tasks(log) {
      assert Tasks(log)[id] in scan;
    }
  }

  /** With increasing timestamps and a log within the scan limit, `get_task` returns the last write of its id. */
  lemma GetReturnsLastWrite(log: seq<Row>, scan: seq<Row>, id: string)
    requires Increasing(log) && |log| <= SCAN_LIMIT && Answers(log, scan)
    ensures Found(Listed(scan), id) == if id in Tasks(log) then Some(Tasks(log)[id]) else None
  {
    ListedIs(scan);
    TasksIs(log, id);
    if id != "" {
      NewestIsLastWrite(log, scan, id);
      if id in Tasks(log) { assert Tasks(log)[id] in Listed(scan); }
    }
  }

  /** `list_tasks` holds exactly the map's rows, each id once, sorted by start time descending. */
  lemma ListReturnsTheMap(log: seq<Row>, scan: seq<Row>)
    requires Increasing(log) && |log| <= SCAN_LIMIT && Answers(log, scan)
    ensures var tasks := Listed(scan);
            && Descending(tasks) && DistinctIds(tasks)
            && (forall t :: t in tasks <==> t.id in Tasks(log) && Tasks(log)[t.id] == t)
  {
    ListedIs(scan);
    forall t ensures t in Listed(scan) <==> t.id in Tasks(log) && Tasks(log)[t.id] == t {
      TasksIs(log, t.id);
      if t.id != "" { NewestIsLastWrite(log, scan, t.id); }
    }
  }

  /** The row an update appends: every field given is written, every other column kept, the id and clock its own. */
  lemma MergedRow(current: Row, f: Fields, now: int)
    ensures var row := Merged(current, f, now);
            && row.id == current.id && row.updated == now
            && row.started == (match f.started case Some(at) => at case None => current.started)
            && (forall c | c in f.rest :: c in row.rest && row.rest[c] == f.rest[c])
            && (forall c | c in current.rest && c !in f.rest :: c in row.rest && row.rest[c] == current.rest[c])
            && (forall c | c in row.rest :: c in f.rest || c in current.rest)
  {
  }

  /** `update_task` changes one id, in the given fields and the timestamp only. */
  lemma UpdateChangesOneTask(log: seq<Row>, scan: seq<Row>, id: string, f: Fields, now: int)
    requires Increasing(log) && |log| <= SCAN_LIMIT && Answers(log, scan)
    requires forall r | r in log :: r.updated < now
    ensures Found(Listed(scan), id).Some? <==> id in Tasks(log)
    ensures id in Tasks(log) ==>
              var row := Merged(Found(Listed(scan), id).value, f, now);
              && Increasing(log + [row]) && Tasks(log + [row]) == Tasks(log)[id := row]
              && (f.started.None? ==> row.started == Tasks(log)[id].started)
              && forall c | c in Tasks(log)[id].rest && c !in f.rest ::
                   c in row.rest && row.rest[c] == Tasks(log)[id].rest[c]
  {
    GetReturnsLastWrite(log, scan, id);
    if id in Tasks(log) {
      TasksIs(log, id);
      LaterRow(log, Merged(Tasks(log)[id], f, now));
    }
  }

  lemma LaterRow(log: seq<Row>, row: Row)
    requires Increasing(log) && row.id != "" && forall r | r in log :: r.updated < row.updated
    ensures Increasing(log + [row]) && Tasks(log + [row]) == Tasks(log)[row.id := row]
  {
  }

  // ---- when timestamps need not increase ----

  /** The first row of the scan with that id and that timestamp. */
  function FirstAt(scan: seq<Row>, id: string, updated: int): (found: Option<Row>)
    ensures found.Some? ==> found.value in scan && found.value.id == id && found.value.updated == updated
    ensures found.None? ==> forall r | r in scan :: r.id != id || r.updated != updated
  {
    if scan == [] then None
    else if scan[0].id == id && scan[0].updated == updated then Some(scan[0])
    else FirstAt(scan[1..], id, updated)
  }

  lemma {:induction false} FirstAtSnoc(scan: seq<Row>, r: Row, id: string, updated: int)
    ensures FirstAt(scan + [r], id, updated) ==
            if FirstAt(scan, id, updated).Some? then FirstAt(scan, id, updated)
            else if r.id == id && r.updated == updated then Some(r) else None
  {
    if scan == [] {
      assert scan + [r] == [r];
    } else {
      assert (scan + [r])[1..] == scan[1..] + [r];
      FirstAtSnoc(scan[1..], r, id, updated);
    }
  }

  /** Of the rows with the greatest timestamp of an id, the first in the scan counts as the newest. */
  lemma {:induction false} NewestIsFirst(scan: seq<Row>, id: string)
    ensures Newest(scan, id).Some? ==> FirstAt(scan, id, Newest(scan, id).value.updated) == Newest(scan, id)
  {
    if scan != [] {
      var n := |scan| - 1;
      assert scan == scan[..n] + [scan[n]];
      NewestIsFirst(scan[..n], id);
      if Newest(scan, id).Some? { FirstAtSnoc(scan[..n], scan[n], id, Newest(scan, id).value.updated); }
    }
  }

  lemma SameRows(rows: seq<Row>, scan: seq<Row>, r: Row)
    requires multiset(scan) == multiset(rows)
    ensures r in scan <==> r in rows
  {
    assert r in scan <==> r in multiset(scan);
    assert r in rows <==> r in multiset(rows);
  }

  /**
   With any timestamps and any order of the scans before and after, a read after an update sees the new row
   exactly when its timestamp is later than that of the row it replaces, or equal to it and the new row comes
   first in the scan among the rows of that id and timestamp.
   */
  lemma UpdateVisibleIff(log: seq<Row>, before: seq<Row>, scan: seq<Row>, id: string, f: Fields, now: int)
    requires |log| < SCAN_LIMIT && Answers(log, before) && Found(Listed(before), id).Some?
    requires Answers(log + [Merged(Found(Listed(before), id).value, f, now)], scan)
    ensures var current := Found(Listed(before), id).value;
            var row := Merged(current, f, now);
            Found(Listed(scan), id) == Some(row) <==>
              now > current.updated || (now == current.updated && FirstAt(scan, id, now) == Some(row))
    ensures var current := Found(Listed(before), id).value;
            var found := Found(Listed(scan), id);
            found.Some? && found.value.updated == if now > current.updated then now else current.updated
  {
    var current := Found(Listed(before), id).value;
    var row := Merged(current, f, now);
    ListedIs(before);
    ListedIs(scan);
    forall r ensures r in scan <==> r in before || r == row {
      SameRows(log, before, r);
      SameRows(log + [row], scan, r);
    }
    NewestOfMore(before, scan, row);
    NewestIsFirst(scan, id);
    assert Newest(scan, id).value in Listed(scan);
  }

  /** One more row of an id: the greatest timestamp of the id is the later of the two. */
  lemma NewestOfMore(before: seq<Row>, scan: seq<Row>, row: Row)
    requires Newest(before, row.id).Some? && forall r :: r in scan <==> r in before || r == row
    ensures Newest(scan, row.id).Some?
    ensures var was := Newest(before, row.id).value.updated;
            Newest(scan, row.id).value.updated == if row.updated > was then row.updated else was
    ensures row.updated > Newest(before, row.id).value.updated ==> Newest(scan, row.id) == Some(row)
  {
    assert Newest(before, row.id).value in scan && row in scan;
  }

  /** In particular, when the scan comes in the order of the log, only a later timestamp makes the row visible. */
  lemma UpdateVisibleInLogOrder(log: seq<Row>, id: string, f: Fields, now: int)
    requires id != "" && Newest(log, id).Some?
    ensures var current := Newest(log, id).value;
            var row := Merged(current, f, now);
            Found(Listed(log + [row]), id) == Some(if now > current.updated then row else current)
  {
    var current := Newest(log, id).value;
    var row := Merged(current, f, now);
    assert (log + [row])[..|log|] == log;
    ListedIs(log + [row]);
    assert Newest(log + [row], id) == Some(if now > current.updated then row else current);
    assert Newest(log + [row], id).value in Listed(log + [row]);
  }
}
