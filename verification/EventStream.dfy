/** The server-sent event stream: polling the log and resuming with Last-Event-ID. */
module EventStream {
  import opened Wrappers
  import opened EventLog

  const PAGE := 50

  // ---- the Last-Event-ID header ----

  function Digit(n: nat): (c: char)
    requires n < 10
    ensures '0' <= c <= '9' && c as int - '0' as int == n
  {
    ('0' as int + n) as char
  }

  /** The `id:` field of a message. */
  function FormatId(n: nat): (s: string)
    ensures s != "" && forall i | 0 <= i < |s| :: '0' <= s[i] <= '9'
  {
    if n < 10 then [Digit(n)] else FormatId(n / 10) + [Digit(n % 10)]
  }

  function ParseDigits(s: string): Option<nat> {
    if s == "" then None
    else
      var c := s[|s| - 1];
      if !('0' <= c <= '9') then None
      else if |s| == 1 then Some(c as int - '0' as int)
      else
        match ParseDigits(s[..|s| - 1])
        case None => None
        case Some(front) => Some(10 * front + (c as int - '0' as int))
  }

  /** `int(text)`, or None for its ValueError. */
  function ParseInt(s: string): Option<int> {
    if s == "" then None
    else if s[0] == '-' then Signed(-1, ParseDigits(s[1..]))
    else if s[0] == '+' then Signed(1, ParseDigits(s[1..]))
    else Signed(1, ParseDigits(s))
  }

  function Signed(sign: int, digits: Option<nat>): Option<int> {
    match digits
    case None => None
    case Some(n) => Some(sign * n)
  }

  /** Where a new stream starts: a missing or unreadable header means from the beginning. */
  function StartFrom(header: Option<string>): int {
    match header
    case None => 0
    case Some(text) => match ParseInt(text) case None => 0 case Some(n) => n
  }

  lemma {:induction false} DigitsParseBack(n: nat)
    ensures ParseDigits(FormatId(n)) == Some(n)
  {
    if n >= 10 {
      DigitsParseBack(n / 10);
      var s := FormatId(n);
      assert s[..|s| - 1] == FormatId(n / 10);
    }
  }

  /** A client that returns the id it was sent resumes at that event. */
  lemma ResumesAtId(n: nat)
    ensures StartFrom(Some(FormatId(n))) == n
  {
    DigitsParseBack(n);
  }

  // ---- the generator ----

  class Generator {
    const scope: Filter
    var lastSeq: int
    ghost var sent: seq<Event>

    constructor (header: Option<string>, scope: Filter)
      ensures this.scope == scope && lastSeq == StartFrom(header) && sent == []
    {
      this.scope := scope;
      lastSeq, sent := StartFrom(header), [];
    }

    /** One round of the endless loop; the client goes away after `limit` events. */
    method Round(service: EventService, limit: nat) returns (heartbeat: bool)
      modifies this
      ensures var items := Query(service.log, old(lastSeq), scope, PAGE).items;
              var n := if limit < |items| then limit else |items|;
              && sent == old(sent) + items[..n]
              && lastSeq == (if n == 0 then old(lastSeq) else items[n - 1].seqNo)
              && (heartbeat <==> items == [])
    {
      var page := Query(service.log, lastSeq, scope, PAGE);
      var n := if limit < |page.items| then limit else |page.items|;
      for i := 0 to n
        invariant sent == old(sent) + page.items[..i]
        invariant lastSeq == if i == 0 then old(lastSeq) else page.items[i - 1].seqNo
      {
        var event := page.items[i];
        lastSeq := event.seqNo;
        sent := sent + [event];
        assert page.items[..i + 1] == page.items[..i] + [event];
      }
      heartbeat := page.items == [];
    }
  }

  // ---- runs of emits, rounds, disconnects and resumes ----

  /** The log and one client: the id it first asked for, where its stream stands, what it received. */
  datatype State = State(log: seq<Event>, start: int, cursor: int, received: seq<Event>)

  datatype Action =
    | Emit(event: Event)
    /** A round of which at most `limit` events reach the client. */
    | Deliver(limit: nat)
    /** The client opens a new stream with the last id it was sent, if any. */
    | Reconnect

  ghost predicate Enabled(s: State, a: Action) {
    a.Emit? ==> forall i | 0 <= i < |s.log| :: s.log[i].seqNo < a.event.seqNo
  }

  function LastId(s: State): int {
    if s.received == [] then s.start else StartFrom(Some(FormatId(s.received[|s.received| - 1].seqNo)))
  }

  function After(s: State, a: Action, scope: Filter): State {
    match a
    case Emit(event) => s.(log := s.log + [event])
    case Deliver(limit) =>
      var items := Query(s.log, s.cursor, scope, PAGE).items;
      var n := if limit < |items| then limit else |items|;
      s.(received := s.received + items[..n], cursor := if n == 0 then s.cursor else items[n - 1].seqNo)
    case Reconnect => s.(cursor := LastId(s))
  }

  ghost predicate IsRun(states: seq<State>, actions: seq<Action>, scope: Filter) {
    && |states| == |actions| + 1
    && states[0].log == [] && states[0].received == [] && states[0].cursor == states[0].start
    && forall i | 0 <= i < |actions| ::
         Enabled(states[i], actions[i]) && states[i + 1] == After(states[i], actions[i], scope)
  }

  ghost predicate Inv(s: State, scope: Filter) {
    && Ordered(s.log) && s.start <= s.cursor
    && s.cursor == (if s.received == [] then s.start else s.received[|s.received| - 1].seqNo)
    && s.received == Between(s.log, s.start, s.cursor, scope)
  }

  lemma EmitKeeps(s: State, e: Event, scope: Filter)
    requires Inv(s, scope) && Enabled(s, Emit(e))
    ensures Inv(After(s, Emit(e), scope), scope)
  {
    var longer := s.log + [e];
    assert longer[..|s.log|] == s.log;
    if s.received != [] {
      var last := s.received[|s.received| - 1];
      assert last in s.received;
      BetweenIs(s.log, s.start, s.cursor, scope, last);
    }
  }

  lemma DeliverKeeps(s: State, limit: nat, scope: Filter)
    requires Inv(s, scope)
    ensures Inv(After(s, Deliver(limit), scope), scope)
  {
    var items := Query(s.log, s.cursor, scope, PAGE).items;
    var n := if limit < |items| then limit else |items|;
    PageIsNextStretch(s.log, s.cursor, scope, PAGE, n);
    BetweenJoins(s.log, s.start, s.cursor, After(s, Deliver(limit), scope).cursor, scope);
  }

  lemma {:induction false} RunKeeps(states: seq<State>, actions: seq<Action>, scope: Filter, k: nat)
    requires IsRun(states, actions, scope) && k < |states|
    ensures Inv(states[k], scope) && states[k].start == states[0].start
  {
    var s := states[k];
    if k == 0 {
      NothingBetween(s.log, s.start, s.cursor, scope);
    } else {
      RunKeeps(states, actions, scope, k - 1);
      var pre := states[k - 1];
      match actions[k - 1] {
        case Emit(e) => EmitKeeps(pre, e, scope);
        case Deliver(limit) => DeliverKeeps(pre, limit, scope);
        case Reconnect =>
          if pre.received != [] { ResumesAtId(pre.received[|pre.received| - 1].seqNo); }
      }
    }
  }

  /**
   However emits, rounds, disconnects and resumes interleave, the client has received exactly the
   in-scope events above its starting id up to its cursor, in log order, each once.
   */
  lemma StreamRefinesFilter(states: seq<State>, actions: seq<Action>, scope: Filter, k: nat)
    requires IsRun(states, actions, scope) && k < |states|
    ensures var s := states[k];
            && s.received == Between(s.log, states[0].start, s.cursor, scope)
            && s.received + Select(s.log, s.cursor, scope) == Select(s.log, states[0].start, scope)
    ensures Ordered(states[k].received)
  {
    RunKeeps(states, actions, scope, k);
    var s := states[k];
    BetweenThenSelect(s.log, s.start, s.cursor, scope);
    SelectOrdered(s.log, s.start, scope);
    assert forall i | 0 <= i < |s.received| :: s.received[i] == Select(s.log, s.start, scope)[i];
  }

  /** A completed round that fetched less than a full page leaves nothing undelivered. */
  lemma ShortPageIsComplete(states: seq<State>, actions: seq<Action>, scope: Filter, k: nat)
    requires IsRun(states, actions, scope) && k < |actions| && actions[k].Deliver?
    requires var fetched := |Query(states[k].log, states[k].cursor, scope, PAGE).items|;
             fetched < PAGE && fetched <= actions[k].limit
    ensures states[k + 1].received == Select(states[k].log, states[0].start, scope)
  {
    StreamRefinesFilter(states, actions, scope, k);
    var s := states[k];
    var page := Query(s.log, s.cursor, scope, PAGE);
    assert page.items[..|page.items|] == page.items;
    assert !page.hasMore && page.items == Select(s.log, s.cursor, scope);
  }

  function Min(a: nat, b: nat): nat { if a < b then a else b }

  /** A round delivers the next events that are due, at most 50 and at most as many as reach the client. */
  lemma RoundDelivers(s: State, limit: nat, scope: Filter)
    ensures var due := Select(s.log, s.cursor, scope);
            After(s, Deliver(limit), scope).received == s.received + due[..Min(limit, Min(50, |due|))]
  {
    PageSize(s.log, s.cursor, scope, PAGE);
  }
}
