/** Polling a job until it ends, with retries inside a round and a deadline over the rounds. */
module PollJob {
  import opened Wrappers

  const MAX_RETRIES := 3

  /** One status call: a reply with the job's status, or a transport error. */
  datatype Answer = Reply(status: string) | Failed

  /** What `poll_job` ends in: the status it returns, the error it raises again, or a TimeoutError. */
  datatype Outcome = Final(status: string) | TransportError | TimedOut(last: string)

  predicate Ended(status: string) {
    status in {"SUCCEEDED", "STOPPED", "FAILED", "completed", "cancelled", "failed"}
  }

  /** The six statuses that end the polling. */
  lemma EndedExactly(status: string)
    ensures Ended(status) <==>
            || status == "SUCCEEDED" || status == "FAILED" || status == "STOPPED"
            || status == "completed" || status == "failed" || status == "cancelled"
  {
  }

  /** Time that passes beyond what was asked for. */
  type Lateness = r: real | r >= 0.0 witness 0.0

  /** How many rounds fit: the deadline is checked after a round, and each round but the first follows a sleep. */
  function RoundLimit(interval: real, timeout: real): (n: nat)
    requires interval > 0.0
    ensures n >= 1
  {
    var n := (timeout / interval).Floor + 2;
    if n < 1 then 1 else n
  }

  /** `d * n`. */
  function Times(n: nat, d: real): (r: real)
    requires d > 0.0
    ensures r >= 0.0
  {
    if n == 0 then 0.0 else Times(n - 1, d) + d
  }

  lemma {:induction false} TimesIsProduct(n: nat, d: real)
    requires d > 0.0
    ensures Times(n, d) == n as real * d
  {
    if n > 0 { TimesIsProduct(n - 1, d); }
  }

  lemma Divided(x: real, m: real, d: real)
    requires d > 0.0 && m * d <= x
    ensures m <= x / d
  {
  }

  /** After n sleeps of `interval` without passing the deadline, n is within the quotient. */
  lemma SleepsFit(interval: real, timeout: real, n: nat)
    requires interval > 0.0 && Times(n, interval) <= timeout
    ensures n + 2 <= RoundLimit(interval, timeout)
  {
    TimesIsProduct(n, interval);
    Divided(timeout, n as real, interval);
  }

  /**
   `answers` and `late` are what the calls return and how long everything takes, in order. The outcome comes
   with the number of rounds, status calls and cancel calls made, and the time since the start.
   */
  method Poll(interval: real, timeout: real, answers: nat -> Answer, late: nat -> Lateness)
    returns (outcome: Outcome, rounds: nat, calls: nat, cancels: nat, elapsed: real)
    requires interval > 0.0
    ensures 1 <= rounds <= RoundLimit(interval, timeout) && rounds <= calls <= MAX_RETRIES * rounds
    // Every call before the last one failed or reported a job still going on.
    ensures forall i | 0 <= i < calls - 1 :: answers(i).Failed? || !Ended(answers(i).status)
    ensures match outcome
            case Final(s) => Ended(s) && answers(calls - 1) == Reply(s) && cancels == 0
            case TransportError => calls >= 3 && answers(calls - 3).Failed? && answers(calls - 2).Failed?
                                   && answers(calls - 1).Failed? && cancels == 0
            case TimedOut(s) => !Ended(s) && answers(calls - 1) == Reply(s) && cancels == 1 && elapsed > timeout
    ensures elapsed >= Times(rounds - 1, interval)
  {
    hide RoundLimit, Ended;
    var now, tick: nat := 0.0, 0;
    var deadline := now + timeout;
    rounds, calls, cancels := 0, 0, 0;
    while true
      invariant rounds < RoundLimit(interval, timeout) && rounds <= calls <= MAX_RETRIES * rounds && cancels == 0
      invariant now >= Times(rounds, interval)
      invariant forall i | 0 <= i < calls :: answers(i).Failed? || !Ended(answers(i).status)
      decreases RoundLimit(interval, timeout) - rounds
    {
      ghost var start := calls;
      var retry, reply := 0, None;
      while retry < MAX_RETRIES
        invariant retry <= MAX_RETRIES && calls == start + retry && reply.None?
        invariant now >= Times(rounds, interval)
        invariant forall i | 0 <= i < calls :: answers(i).Failed? || !Ended(answers(i).status)
        invariant forall i | start <= i < calls :: answers(i).Failed?
        invariant retry < MAX_RETRIES
      {
        now, tick := now + late(tick), tick + 1;
        calls := calls + 1;
        match answers(calls - 1) {
          case Reply(status) =>
            reply := Some(status);
            break;
          case Failed =>
            retry := retry + 1;
            if retry >= MAX_RETRIES { return TransportError, rounds + 1, calls, cancels, now; }
            now, tick := now + Times(retry, interval) + late(tick), tick + 1;
        }
      }
      rounds := rounds + 1;
      var status := reply.value;
      if Ended(status) { return Final(status), rounds, calls, cancels, now; }
      if now > deadline {
        cancels := cancels + 1;
        return TimedOut(status), rounds, calls, cancels, now;
      }
      SleepsFit(interval, timeout, rounds - 1);
      now, tick := now + interval + late(tick), tick + 1;
    }
  }
}
