/** The request throttle in front of the LLM: a FIFO queue drained by one loop
    at a time, a minimum spacing between items, and a per-item retry loop.

    Time is an integer millisecond clock. The wrapped request `fn` is replaced
    by the list of outcomes its successive calls produce, each with the time the
    call took; timers are taken to fire exactly when they are due. */
module RateLimiter {
  import opened Util

  datatype Config = Config(minDelay: nat, maxRetries: int, retryDelay: nat)

  /** The constructor's defaults, also those of the shared LLM limiter. */
  const DefaultConfig := Config(1000, 3, 2000)

  /** What one call of `fn` does: resolve with a value, or throw an error whose
      message does or does not mention 429. */
  datatype Outcome = Ok(value: int) | Err(rateLimited: bool)

  datatype Call = Call(took: nat, outcome: Outcome)

  /** A queued request: `calls[k]` is what its `k`-th call yields. */
  datatype Item = Item(id: nat, calls: seq<Call>)

  /** The calls an item's retry loop can make are all described. */
  predicate Covers(c: Config, item: Item)
  {
    c.maxRetries <= |item.calls|
  }

  datatype Limiter = Limiter(config: Config, queue: seq<Item>, processing: bool, lastRequestTime: int)

  predicate Ready(l: Limiter)
  {
    forall k :: 0 <= k < |l.queue| ==> Covers(l.config, l.queue[k])
  }

  function Create(c: Config): (l: Limiter)
    ensures l.config == c && l.queue == [] && !l.processing && l.lastRequestTime == 0
  {
    Limiter(c, [], false, 0)
  }

  /** `getQueueLength`. */
  function QueueLength(l: Limiter): (n: nat)
    ensures n == |l.queue|
  {
    |l.queue|
  }

  // ---------------------------------------------------------------------------
  // Submitting

  /** The push in `execute`. */
  function Enqueue(l: Limiter, item: Item): (r: Limiter)
    ensures r.queue == l.queue + [item] && QueueLength(r) == QueueLength(l) + 1
    ensures r.(queue := l.queue) == l
  {
    l.(queue := l.queue + [item])
  }

  /** The guard at the top of `processQueue`: a call while the loop runs, or
      with nothing queued, does nothing; otherwise the loop starts. */
  function Kick(l: Limiter): (r: Limiter)
    ensures l.processing || |l.queue| == 0 ==> r == l
    ensures !l.processing && |l.queue| > 0 ==> r == l.(processing := true)
  {
    if l.processing || |l.queue| == 0 then l else l.(processing := true)
  }

  /** What `execute` leaves behind when it returns: the limiter and, when its
      call started the drain loop, the item that loop has already shifted off
      and is serving (waiting out the spacing, or inside its first call). */
  datatype Submission = Submission(limiter: Limiter, serving: Option<Item>)

  /** The drain loop up to its first `await`, at time `now`. An empty queue
      ends the loop. Otherwise the head is shifted off; the loop suspends on
      the spacing wait when one is due, or else stamps `lastRequestTime` and
      suspends inside the first call. With no attempt allowed
      (`maxRetries <= 0`) and no wait due the item passes without an `await`
      and the loop moves on to the next. */
  function StartLoop(l: Limiter, now: int): (r: Submission)
    requires l.processing
    ensures r.limiter.config == l.config
    ensures |l.queue| == 0 ==> r == Submission(l.(processing := false), None)
    ensures |l.queue| > 0 && (Wait(l.config, now, l.lastRequestTime) > 0 || l.config.maxRetries > 0) ==>
      && r.serving == Some(l.queue[0])
      && r.limiter == l.(queue := l.queue[1..],
                         lastRequestTime := if Wait(l.config, now, l.lastRequestTime) == 0 then now else l.lastRequestTime)
    // every item then passes at once, each leaving its promise unsettled
    ensures Wait(l.config, now, l.lastRequestTime) == 0 && l.config.maxRetries <= 0 ==>
      r == Submission(l.(queue := [], processing := false), None)
    decreases |l.queue|
  {
    if |l.queue| == 0 then Submission(l.(processing := false), None)
    else
      var item, rest := l.queue[0], l.(queue := l.queue[1..]);
      if Wait(l.config, now, l.lastRequestTime) > 0 then Submission(rest, Some(item))
      else if l.config.maxRetries > 0 then Submission(rest.(lastRequestTime := now), Some(item))
      else StartLoop(rest, now)
  }

  /** `execute` at time `now`: queue the request and, unless a drain loop is
      already running, start one, which runs synchronously until its first
      `await`. */
  function Execute(l: Limiter, item: Item, now: int): (r: Submission)
    ensures r.limiter.config == l.config
    ensures l.processing ==> r == Submission(l.(queue := l.queue + [item]), None)
    // an idle limiter with an empty queue serves the new item at once
    ensures !l.processing && l.queue == [] && l.config.maxRetries > 0 ==>
      && r.serving == Some(item) && r.limiter.processing && QueueLength(r.limiter) == 0
      && r.limiter.lastRequestTime
           == (if Wait(l.config, now, l.lastRequestTime) == 0 then now else l.lastRequestTime)
    ensures !l.processing && l.queue == [] && l.config.maxRetries <= 0 ==>
      && QueueLength(r.limiter) == 0 && r.limiter.lastRequestTime == l.lastRequestTime
      && (r.serving == Some(item) <==> Wait(l.config, now, l.lastRequestTime) > 0)
      && (r.limiter.processing <==> r.serving.Some?)
    ensures !l.processing && l.queue != [] ==>
      r == StartLoop(l.(queue := l.queue + [item], processing := true), now)
  {
    var queued := Enqueue(l, item);
    if queued.processing then Submission(queued, None)
    else StartLoop(Kick(queued), now)
  }

  /** `execute` on an idle limiter does the first part of the loop's first
      turn: the queue it leaves is the one `Step` leaves, the item served is
      the one `Step` reports on, and the last request time it stamps is the
      start of that item's first attempt. */
  lemma {:induction false} ExecuteBeginsStep(l: Limiter, item: Item, now: int)
    requires !l.processing && l.queue == [] && l.config.maxRetries > 0 && Covers(l.config, item)
    ensures var sub := Execute(l, item, now);
      var turn := Step(l.(queue := [item], processing := true), now);
      && sub.limiter.queue == turn.0.queue && sub.serving == Some(item) && turn.1.value.id == item.id
      && (Wait(l.config, now, l.lastRequestTime) == 0 ==>
            sub.limiter.lastRequestTime == turn.1.value.run.logs[0].start)
  {
    var t := now + Wait(l.config, now, l.lastRequestTime);
    AttemptsTiming(l.config, item.calls, 0, t, None);
  }

  // ---------------------------------------------------------------------------
  // One item's retry loop

  datatype Settlement = Resolved(value: int) | Rejected(error: Outcome) | Unsettled

  /** One attempt: when it started, what it yielded and the pause taken after it. */
  datatype Log = Log(start: int, outcome: Outcome, backoff: nat)

  datatype Run = Run(logs: seq<Log>, settlement: Settlement, finish: int)

  /** The pause after a failed attempt: linear in the attempt number, and only
      for a 429 that is not the last allowed attempt. */
  function Backoff(c: Config, attempt: nat, o: Outcome): nat
  {
    if o.Err? && o.rateLimited && attempt < c.maxRetries - 1 then c.retryDelay * (attempt + 1) else 0
  }

  /** The retry loop from `attempt` on, at time `t`, with `lastError` the error
      of the previous attempt. An attempt runs exactly while the counter is
      below the cap. */
  function Attempts(c: Config, calls: seq<Call>, attempt: nat, t: int, lastError: Option<Outcome>): (r: Run)
    requires c.maxRetries <= |calls|
    ensures |r.logs| == 0 <==> attempt >= c.maxRetries
    ensures |r.logs| > 0 ==> attempt + |r.logs| <= c.maxRetries
    decreases c.maxRetries - attempt
  {
    if attempt >= c.maxRetries then
      Run([], if lastError.Some? then Rejected(lastError.value) else Unsettled, t)
    else
      var call := calls[attempt];
      match call.outcome
      case Ok(v) => Run([Log(t, call.outcome, 0)], Resolved(v), t + call.took)
      case Err(_) =>
        var b := Backoff(c, attempt, call.outcome);
        var rest := Attempts(c, calls, attempt + 1, t + call.took + b, Some(call.outcome));
        Run([Log(t, call.outcome, b)] + rest.logs, rest.settlement, rest.finish)
  }

  /** The attempts log the calls' outcomes in order; the first success ends
      the loop and resolves with its value; a loop that never succeeds uses
      every attempt and rejects with the last error. */
  lemma {:induction false} AttemptsSettle(c: Config, calls: seq<Call>, attempt: nat, t: int, lastError: Option<Outcome>)
    requires c.maxRetries <= |calls|
    ensures var r := Attempts(c, calls, attempt, t, lastError);
      && (forall k :: 0 <= k < |r.logs| ==> r.logs[k].outcome == calls[attempt + k].outcome)
      && (forall k :: 0 <= k < |r.logs| - 1 ==> r.logs[k].outcome.Err?)
      && (r.settlement.Resolved? <==> |r.logs| > 0 && r.logs[|r.logs| - 1].outcome.Ok?)
      && (r.settlement.Resolved? ==> r.settlement.value == r.logs[|r.logs| - 1].outcome.value)
      && (|r.logs| > 0 && !r.settlement.Resolved? ==>
            attempt + |r.logs| == c.maxRetries && r.settlement == Rejected(r.logs[|r.logs| - 1].outcome))
      && (|r.logs| == 0 ==> r.settlement == (if lastError.Some? then Rejected(lastError.value) else Unsettled))
    decreases c.maxRetries - attempt
  {
    AttemptsLogOutcomes(c, calls, attempt, t, lastError);
    AttemptsSettlement(c, calls, attempt, t, lastError);
  }

  lemma AttemptsLogOutcomes(c: Config, calls: seq<Call>, attempt: nat, t: int, lastError: Option<Outcome>)
    requires c.maxRetries <= |calls|
    ensures var logs := Attempts(c, calls, attempt, t, lastError).logs;
      && (forall k :: 0 <= k < |logs| ==> logs[k].outcome == calls[attempt + k].outcome)
      && (forall k :: 0 <= k < |logs| - 1 ==> logs[k].outcome.Err?)
  {
    var logs := Attempts(c, calls, attempt, t, lastError).logs;
    forall k | 0 <= k < |logs|
      ensures logs[k].outcome == calls[attempt + k].outcome
      ensures k < |logs| - 1 ==> logs[k].outcome.Err?
    {
      AttemptLogged(c, calls, attempt, t, lastError, k);
    }
  }

  /** The `k`-th logged attempt is call `attempt + k`, and failed unless it
      is the last. */
  lemma {:induction false} AttemptLogged(c: Config, calls: seq<Call>, attempt: nat, t: int, lastError: Option<Outcome>, k: nat)
    requires c.maxRetries <= |calls|
    requires k < |Attempts(c, calls, attempt, t, lastError).logs|
    ensures var logs := Attempts(c, calls, attempt, t, lastError).logs;
      && logs[k].outcome == calls[attempt + k].outcome
      && (k < |logs| - 1 ==> logs[k].outcome.Err?)
    decreases k
  {
    var r := Attempts(c, calls, attempt, t, lastError);
    var call := calls[attempt];
    if call.outcome.Err? {
      var b := Backoff(c, attempt, call.outcome);
      var rest := Attempts(c, calls, attempt + 1, t + call.took + b, Some(call.outcome));
      assert r.logs == [Log(t, call.outcome, b)] + rest.logs;
      if k > 0 {
        AttemptLogged(c, calls, attempt + 1, t + call.took + b, Some(call.outcome), k - 1);
        assert r.logs[k] == rest.logs[k - 1];
      }
    }
  }

  lemma {:induction false} AttemptsSettlement(c: Config, calls: seq<Call>, attempt: nat, t: int, lastError: Option<Outcome>)
    requires c.maxRetries <= |calls|
    ensures var r := Attempts(c, calls, attempt, t, lastError);
      && (r.settlement.Resolved? <==> |r.logs| > 0 && r.logs[|r.logs| - 1].outcome.Ok?)
      && (r.settlement.Resolved? ==> r.settlement.value == r.logs[|r.logs| - 1].outcome.value)
      && (|r.logs| > 0 && !r.settlement.Resolved? ==>
            attempt + |r.logs| == c.maxRetries && r.settlement == Rejected(r.logs[|r.logs| - 1].outcome))
      && (|r.logs| == 0 ==> r.settlement == (if lastError.Some? then Rejected(lastError.value) else Unsettled))
    decreases c.maxRetries - attempt
  {
    var r := Attempts(c, calls, attempt, t, lastError);
    if attempt < c.maxRetries && calls[attempt].outcome.Err? {
      var call := calls[attempt];
      var b := Backoff(c, attempt, call.outcome);
      var rest := Attempts(c, calls, attempt + 1, t + call.took + b, Some(call.outcome));
      AttemptsSettlement(c, calls, attempt + 1, t + call.took + b, Some(call.outcome));
      assert r.logs == [Log(t, call.outcome, b)] + rest.logs;
      if |rest.logs| > 0 {
        assert r.logs[|r.logs| - 1] == rest.logs[|rest.logs| - 1];
      }
    }
  }

  /** Each logged attempt paused for `Backoff` of its own attempt number. */
  predicate BackoffsFollowRule(c: Config, attempt: nat, logs: seq<Log>)
  {
    forall k :: 0 <= k < |logs| ==> logs[k].backoff == Backoff(c, attempt + k, logs[k].outcome)
  }

  /** Each logged attempt started when the previous call returned and its
      pause ended. */
  predicate BackToBack(calls: seq<Call>, attempt: nat, logs: seq<Log>)
  {
    forall k :: 0 <= k < |logs| - 1 && attempt + k < |calls| ==>
      logs[k + 1].start == logs[k].start + calls[attempt + k].took + logs[k].backoff
  }

  lemma {:induction false} AttemptsBackoff(c: Config, calls: seq<Call>, attempt: nat, t: int, lastError: Option<Outcome>)
    requires c.maxRetries <= |calls|
    ensures BackoffsFollowRule(c, attempt, Attempts(c, calls, attempt, t, lastError).logs)
    decreases c.maxRetries - attempt
  {
    var r := Attempts(c, calls, attempt, t, lastError);
    if attempt < c.maxRetries && calls[attempt].outcome.Err? {
      var call := calls[attempt];
      var b := Backoff(c, attempt, call.outcome);
      var rest := Attempts(c, calls, attempt + 1, t + call.took + b, Some(call.outcome));
      AttemptsBackoff(c, calls, attempt + 1, t + call.took + b, Some(call.outcome));
      assert r.logs == [Log(t, call.outcome, b)] + rest.logs;
      forall k | 0 <= k < |r.logs|
        ensures r.logs[k].backoff == Backoff(c, attempt + k, r.logs[k].outcome)
      {
        if k > 0 {
          assert r.logs[k] == rest.logs[k - 1];
        }
      }
    }
  }

  /** Attempt timing: the loop starts at `t`, and attempts follow each other
      back to back. */
  lemma {:induction false} AttemptsTiming(c: Config, calls: seq<Call>, attempt: nat, t: int, lastError: Option<Outcome>)
    requires c.maxRetries <= |calls|
    ensures |Attempts(c, calls, attempt, t, lastError).logs| > 0 ==> Attempts(c, calls, attempt, t, lastError).logs[0].start == t
    ensures BackToBack(calls, attempt, Attempts(c, calls, attempt, t, lastError).logs)
    decreases c.maxRetries - attempt
  {
    var r := Attempts(c, calls, attempt, t, lastError);
    if attempt < c.maxRetries && calls[attempt].outcome.Err? {
      var call := calls[attempt];
      var b := Backoff(c, attempt, call.outcome);
      var rest := Attempts(c, calls, attempt + 1, t + call.took + b, Some(call.outcome));
      AttemptsTiming(c, calls, attempt + 1, t + call.took + b, Some(call.outcome));
      assert r.logs == [Log(t, call.outcome, b)] + rest.logs;
      forall k | 0 <= k < |r.logs| - 1
        ensures r.logs[k + 1].start == r.logs[k].start + calls[attempt + k].took + r.logs[k].backoff
      {
        if k > 0 {
          assert r.logs[k] == rest.logs[k - 1] && r.logs[k + 1] == rest.logs[k];
        }
      }
    }
  }

  /** A failure that is not a 429 is retried at once. */
  lemma {:induction false} PlainErrorsRetryAtOnce(c: Config, calls: seq<Call>, t: int, k: nat)
    requires c.maxRetries <= |calls|
    requires k + 1 < |Attempts(c, calls, 0, t, None).logs|
    requires calls[k].outcome == Err(false)
    ensures var r := Attempts(c, calls, 0, t, None);
      r.logs[k + 1].start == r.logs[k].start + calls[k].took
  {
    AttemptsTiming(c, calls, 0, t, None);
    AttemptsBackoff(c, calls, 0, t, None);
    AttemptsSettle(c, calls, 0, t, None);
  }

  // ---------------------------------------------------------------------------
  // The drain loop

  /** The pause before an item's first attempt: what is left of `minDelay`
      since the last attempt started. */
  function Wait(c: Config, now: int, last: int): (w: nat)
    ensures now + w >= last + c.minDelay && now + w >= now
    ensures now + w == last + c.minDelay || w == 0
  {
    if now - last < c.minDelay then c.minDelay - (now - last) else 0
  }

  datatype Report = Report(id: nat, run: Run)

  /** One item taken from the queue at time `now`: the spacing wait, then the
      retry loop. Returns the report and the new `lastRequestTime`, the start
      of its last attempt. */
  function Process(c: Config, item: Item, now: int, last: int): (r: (Report, int))
    requires Covers(c, item)
    ensures r.0.id == item.id
    ensures var logs := r.0.run.logs;
      && (|logs| > 0 ==> logs[0].start == now + Wait(c, now, last) && r.1 == logs[|logs| - 1].start)
      && (|logs| == 0 ==> r.1 == last)
    ensures r.0.run.settlement.Unsettled? <==> c.maxRetries <= 0
  {
    var run := Attempts(c, item.calls, 0, now + Wait(c, now, last), None);
    AttemptsTiming(c, item.calls, 0, now + Wait(c, now, last), None);
    AttemptsSettle(c, item.calls, 0, now + Wait(c, now, last), None);
    (Report(item.id, run), if |run.logs| > 0 then run.logs[|run.logs| - 1].start else last)
  }

  /** One turn of the `while` loop at time `now`: with the queue empty the loop
      ends and clears `processing`; otherwise the head is shifted off and
      processed. The result carries the clock after the turn. */
  function Step(l: Limiter, now: int): (r: (Limiter, Option<Report>, int))
    requires l.processing && Ready(l)
    ensures |l.queue| == 0 ==> r == (l.(processing := false), None, now)
    ensures |l.queue| > 0 ==>
      var done := Process(l.config, l.queue[0], now, l.lastRequestTime);
      && r.0 == l.(queue := l.queue[1..], lastRequestTime := done.1)
      && r.1 == Some(done.0) && r.1.value.id == l.queue[0].id
      && r.2 == done.0.run.finish && r.2 >= now
    ensures Ready(r.0)
  {
    if |l.queue| == 0 then (l.(processing := false), None, now)
    else
      var (report, last) := Process(l.config, l.queue[0], now, l.lastRequestTime);
      FinishNotBeforeStart(l.config, l.queue[0].calls, 0, now + Wait(l.config, now, l.lastRequestTime), None);
      (l.(queue := l.queue[1..], lastRequestTime := last), Some(report), report.run.finish)
  }

  lemma {:induction false} FinishNotBeforeStart(c: Config, calls: seq<Call>, attempt: nat, t: int, lastError: Option<Outcome>)
    requires c.maxRetries <= |calls|
    ensures Attempts(c, calls, attempt, t, lastError).finish >= t
    decreases c.maxRetries - attempt
  {
    if attempt < c.maxRetries && calls[attempt].outcome.Err? {
      var call := calls[attempt];
      FinishNotBeforeStart(c, calls, attempt + 1, t + call.took + Backoff(c, attempt, call.outcome), Some(call.outcome));
    }
  }

  /** The loop run to the end with no new submissions. */
  function Drain(l: Limiter, now: int): (r: (Limiter, seq<Report>))
    requires l.processing && Ready(l)
    ensures r.0.queue == [] && !r.0.processing && r.0.config == l.config
    ensures |r.1| == |l.queue|
    decreases |l.queue|
  {
    var (next, report, later) := Step(l, now);
    if report.None? then (next, [])
    else
      var (final, rest) := Drain(next, later);
      (final, [report.value] + rest)
  }

  /** Every report of one drain: each item's attempts, when it made any, started
      no earlier than `minDelay` after the previous item's last attempt. */
  predicate Spaced(c: Config, reports: seq<Report>)
  {
    forall k :: 0 < k < |reports| && |reports[k - 1].run.logs| > 0 && |reports[k].run.logs| > 0 ==>
      reports[k].run.logs[0].start >= Last(reports[k - 1].run.logs).start + c.minDelay
  }

  function Last(logs: seq<Log>): Log
    requires |logs| > 0
  {
    logs[|logs| - 1]
  }

  /** The throttle's promise: the first item waits out `minDelay` since the
      last request before the drain began, and every later item since the
      last attempt of the item before it. */
  lemma {:induction false} DrainIsSpaced(l: Limiter, now: int)
    requires l.processing && Ready(l)
    ensures var reports := Drain(l, now).1;
      && (|reports| > 0 && |reports[0].run.logs| > 0 ==>
            reports[0].run.logs[0].start >= l.lastRequestTime + l.config.minDelay)
      && Spaced(l.config, reports)
    decreases |l.queue|
  {
    if |l.queue| > 0 {
      var (next, report, later) := Step(l, now);
      DrainIsSpaced(next, later);
      var reports := Drain(l, now).1;
      var rest := Drain(next, later).1;
      assert reports == [report.value] + rest;
      forall k | 0 < k < |reports| && |reports[k - 1].run.logs| > 0 && |reports[k].run.logs| > 0
        ensures reports[k].run.logs[0].start >= Last(reports[k - 1].run.logs).start + l.config.minDelay
      {
        assert reports[k] == rest[k - 1];
        if k > 1 {
          assert reports[k - 1] == rest[k - 2];
        }
      }
    }
  }

  /** Items are served in submission order. */
  lemma {:induction false} DrainIsFifo(l: Limiter, now: int)
    requires l.processing && Ready(l)
    ensures var reports := Drain(l, now).1;
      forall k :: 0 <= k < |reports| ==> reports[k].id == l.queue[k].id
    decreases |l.queue|
  {
    if |l.queue| > 0 {
      var (next, report, later) := Step(l, now);
      DrainIsFifo(next, later);
      var reports := Drain(l, now).1;
      assert reports == [report.value] + Drain(next, later).1;
      forall k | 0 <= k < |reports|
        ensures reports[k].id == l.queue[k].id
      {
        if k > 0 {
          assert reports[k] == Drain(next, later).1[k - 1];
          assert next.queue[k - 1] == l.queue[k];
        }
      }
    }
  }

  /** A second submission while the loop runs does not start another one. */
  lemma {:induction false} OneLoopAtATime(l: Limiter, item: Item)
    requires l.processing
    ensures Kick(Enqueue(l, item)) == Enqueue(l, item)
  {
  }

  /** Every item's report says it was tried at most `maxRetries` times and,
      unless it succeeded, exactly that often. */
  lemma {:induction false} AttemptsCapped(c: Config, item: Item, now: int, last: int)
    requires Covers(c, item)
    ensures var run := Process(c, item, now, last).0.run;
      && |run.logs| <= IntMax(0, c.maxRetries)
      && (run.settlement.Rejected? <==> c.maxRetries > 0 && forall k :: 0 <= k < |run.logs| ==> run.logs[k].outcome.Err?)
      && (run.settlement.Rejected? ==> |run.logs| == c.maxRetries)
  {
    var run := Process(c, item, now, last).0.run;
    AttemptsSettle(c, item.calls, 0, now + Wait(c, now, last), None);
    if run.settlement.Resolved? {
      assert !run.logs[|run.logs| - 1].outcome.Err?;
    }
  }
}
