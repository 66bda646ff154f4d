/** The result aggregator of a crawl session (`watchCrawler` in main.go).

    One consumer loop reads crawl results and watches the session's
    cancellation. Go's `select` between the two channels is abstracted into
    a single, already interleaved stream of events: `Cancel` is the moment
    the loop sees the context cancelled, `Ok` and `Err` are results taken
    from the results channel. The loop owns two budgets, the remaining
    error quota and the remaining result quota, and closes its completion
    channel exactly once, on whichever exit it takes. */
module Aggregator {

  // ---------------------------------------------------------------------
  // Go's `int` on a 64-bit platform

  const MIN_INT64: int := -0x8000_0000_0000_0000
  const MAX_INT64: int := 0x7FFF_FFFF_FFFF_FFFF

  type Int64 = x: int | MIN_INT64 <= x <= MAX_INT64

  /** `x--` on a Go `int`: two's-complement wrap-around below MIN_INT64.
      The result is the one 64-bit value congruent to x - 1 modulo 2^64. */
  function Dec(x: Int64): (r: Int64)
    ensures (x - 1 - r) % 0x1_0000_0000_0000_0000 == 0
    ensures x != MIN_INT64 ==> r < x
  {
    if x == MIN_INT64 then MAX_INT64 else x - 1
  }

  // ---------------------------------------------------------------------
  // The quotas the session orchestrator passes in (main.go, constants)

  const ERRORS_LIMIT: Int64 := 100000
  const RESULTS_LIMIT: Int64 := 10000

  // ---------------------------------------------------------------------
  // Events, exits and the loop's state

  /** One thing the loop can observe: the context's cancellation, or one
      crawl result, a success with its message or a failure with its cause. */
  datatype Event = Cancel | Ok(msg: string) | Err(cause: string)

  /** The three ways out of the loop. */
  datatype Exit =
    | Cancelled        // ctx.Done() fired
    | ErrorsExceeded   // "max errors exceeded"
    | GotMaxResults    // "got max results"

  datatype Option<T> = None | Some(value: T)

  /** The loop's state: the two budgets, how many events it has consumed,
      and the exit it took, if any. `exit.Some?` is the completion signal:
      the deferred close of the done channel has happened. */
  datatype State = State(errorsLeft: Int64, resultsLeft: Int64, consumed: nat, exit: Option<Exit>)
  {
    predicate Running() { exit.None? }
  }

  function Start(maxErrors: Int64, maxResults: Int64): (s: State)
  {
    State(maxErrors, maxResults, 0, None)
  }

  /** One iteration of the loop on a running state. */
  function Step(s: State, e: Event): (r: State)
    requires s.Running()
    ensures r.consumed == s.consumed + 1
    // cancellation: stop at once, budgets untouched
    ensures e.Cancel? ==>
      r.exit == Some(Cancelled) && r.errorsLeft == s.errorsLeft && r.resultsLeft == s.resultsLeft
    // a failure spends one error and skips the success path
    ensures e.Err? ==>
      r.errorsLeft == Dec(s.errorsLeft) && r.resultsLeft == s.resultsLeft &&
      (r.exit == Some(ErrorsExceeded) <==> r.errorsLeft <= 0) &&
      (r.Running() <==> r.errorsLeft > 0)
    // a success spends one result
    ensures e.Ok? ==>
      r.resultsLeft == Dec(s.resultsLeft) && r.errorsLeft == s.errorsLeft &&
      (r.exit == Some(GotMaxResults) <==> r.resultsLeft <= 0) &&
      (r.Running() <==> r.resultsLeft > 0)
  {
    match e
    case Cancel =>
      s.(consumed := s.consumed + 1, exit := Some(Cancelled))
    case Err(_) =>
      var left := Dec(s.errorsLeft);
      s.(errorsLeft := left, consumed := s.consumed + 1,
         exit := if left <= 0 then Some(ErrorsExceeded) else None)
    case Ok(_) =>
      var left := Dec(s.resultsLeft);
      s.(resultsLeft := left, consumed := s.consumed + 1,
         exit := if left <= 0 then Some(GotMaxResults) else None)
  }

  /** The loop run over an event stream until it exits or the stream runs
      dry (then it is still waiting for the next event). */
  function Run(s: State, events: seq<Event>): (r: State)
    ensures s.consumed <= r.consumed <= s.consumed + |events|
    ensures !s.Running() ==> r == s
    ensures s.Running() && !r.Running() ==> r.consumed > s.consumed
    // no completion signal before the loop has a reason to stop
    ensures r.Running() ==> r.consumed == s.consumed + |events|
    decreases |events|
  {
    if !s.Running() || events == [] then s
    else Run(Step(s, events[0]), events[1..])
  }

  // ---------------------------------------------------------------------
  // The loop as the source writes it

  /** `watchCrawler`'s goroutine over a given stream of events. It mutates
      its copies of maxErrors and maxResults as the source does;
      `closes` counts how often the done channel gets closed. */
  method WatchCrawler(events: seq<Event>, maxErrors: Int64, maxResults: Int64)
    returns (final: State, closes: nat)
    ensures final == Run(Start(maxErrors, maxResults), events)
    ensures closes == (if final.Running() then 0 else 1)
  {
    var errorsLeft, resultsLeft := maxErrors, maxResults;
    var exit: Option<Exit> := None;
    var i := 0;
    closes := 0;
    while exit.None? && i < |events|
      invariant 0 <= i <= |events|
      invariant closes == 0
      invariant Run(Start(maxErrors, maxResults), events)
             == Run(State(errorsLeft, resultsLeft, i, exit), events[i..])
      decreases |events| - i
    {
      var e := events[i];
      assert events[i..][0] == e && events[i..][1..] == events[i + 1..];
      i := i + 1;
      if e.Cancel? {
        exit := Some(Cancelled);
      } else if e.Err? {
        errorsLeft := Dec(errorsLeft);
        if errorsLeft <= 0 {
          exit := Some(ErrorsExceeded);
        }
      } else {
        resultsLeft := Dec(resultsLeft);
        if resultsLeft <= 0 {
          exit := Some(GotMaxResults);
        }
      }
    }
    final := State(errorsLeft, resultsLeft, i, exit);
    // defer close(readersDone): runs on every return, and only on a return
    if exit.Some? {
      closes := closes + 1;
    }
  }

  // ---------------------------------------------------------------------
  // Counting events

  function CountErr(events: seq<Event>): (n: nat)
    ensures n <= |events|
  {
    if events == [] then 0 else (if events[0].Err? then 1 else 0) + CountErr(events[1..])
  }

  function CountOk(events: seq<Event>): (n: nat)
    ensures n <= |events|
  {
    if events == [] then 0 else (if events[0].Ok? then 1 else 0) + CountOk(events[1..])
  }

  predicate NoCancel(events: seq<Event>)
  {
    forall i :: 0 <= i < |events| ==> !events[i].Cancel?
  }

  // ---------------------------------------------------------------------
  // Properties of the loop

  /** Running over a concatenation is running over each part in turn. */
  lemma {:induction false} RunAppend(s: State, a: seq<Event>, b: seq<Event>)
    ensures Run(s, a + b) == Run(Run(s, a), b)
    decreases |a|
  {
    if !s.Running() || a == [] {
      assert a == [] ==> a + b == b;
    } else {
      assert (a + b)[0] == a[0] && (a + b)[1..] == a[1..] + b;
      RunAppend(Step(s, a[0]), a[1..], b);
    }
  }

  /** Once the loop has exited, no later event is consumed. */
  lemma StoppedIgnoresRest(s: State, events: seq<Event>, rest: seq<Event>)
    requires !Run(s, events).Running()
    ensures Run(s, events + rest) == Run(s, events)
  {
    RunAppend(s, events, rest);
  }

  /** A stream with no cancellation, fewer failures than the error budget
      and fewer successes than the result budget is consumed in full;
      each failure costs exactly one error and each success one result. */
  lemma {:induction false} RunWithinBudgets(s: State, events: seq<Event>)
    requires s.Running() && NoCancel(events)
    requires CountErr(events) == 0 || CountErr(events) < s.errorsLeft
    requires CountOk(events) == 0 || CountOk(events) < s.resultsLeft
    ensures Run(s, events) == State(s.errorsLeft - CountErr(events),
                                    s.resultsLeft - CountOk(events),
                                    s.consumed + |events|, None)
    decreases |events|
  {
    if events != [] {
      assert !events[0].Cancel?;
      RunWithinBudgets(Step(s, events[0]), events[1..]);
    }
  }

  /** The N-th failure stops the loop (for N >= 1), and with a budget of 1
      or less the first failure does: a stream that reaches that failure
      without a cancellation or a result stop exits on it with the error
      budget spent and consumes nothing after it. */
  lemma ErrorQuotaStop(s: State, events: seq<Event>, cause: string, rest: seq<Event>)
    requires s.Running() && s.errorsLeft > MIN_INT64 && NoCancel(events)
    requires CountErr(events) == (if s.errorsLeft >= 1 then s.errorsLeft - 1 else 0)
    requires CountOk(events) == 0 || CountOk(events) < s.resultsLeft
    ensures Run(s, events + [Err(cause)] + rest)
         == State(s.errorsLeft - CountErr(events) - 1,
                  s.resultsLeft - CountOk(events),
                  s.consumed + |events| + 1,
                  Some(ErrorsExceeded))
    ensures Run(s, events + [Err(cause)] + rest).errorsLeft <= 0
  {
    RunWithinBudgets(s, events);
    assert events + [Err(cause)] + rest == events + ([Err(cause)] + rest);
    RunAppend(s, events, [Err(cause)] + rest);
  }

  /** Symmetric to ErrorQuotaStop for successes and the result budget. */
  lemma ResultQuotaStop(s: State, events: seq<Event>, msg: string, rest: seq<Event>)
    requires s.Running() && s.resultsLeft > MIN_INT64 && NoCancel(events)
    requires CountOk(events) == (if s.resultsLeft >= 1 then s.resultsLeft - 1 else 0)
    requires CountErr(events) == 0 || CountErr(events) < s.errorsLeft
    ensures Run(s, events + [Ok(msg)] + rest)
         == State(s.errorsLeft - CountErr(events),
                  s.resultsLeft - CountOk(events) - 1,
                  s.consumed + |events| + 1,
                  Some(GotMaxResults))
    ensures Run(s, events + [Ok(msg)] + rest).resultsLeft <= 0
  {
    RunWithinBudgets(s, events);
    assert events + [Ok(msg)] + rest == events + ([Ok(msg)] + rest);
    RunAppend(s, events, [Ok(msg)] + rest);
  }

  /** A cancellation seen by a running loop stops it at once: the budgets
      keep the values they had and nothing after it is consumed. */
  lemma CancelStop(s: State, events: seq<Event>, rest: seq<Event>)
    requires Run(s, events).Running()
    ensures var m := Run(s, events);
      Run(s, events + [Cancel] + rest)
        == State(m.errorsLeft, m.resultsLeft, s.consumed + |events| + 1, Some(Cancelled))
  {
    var m := Run(s, events);
    RunAppend(s, events + [Cancel], rest);
    RunAppend(s, events, [Cancel]);
    var t := Step(m, Cancel);
    assert [Cancel][1..] == [];
    assert Run(m, [Cancel]) == t;
  }

  /** Go's wrap-around: a failure seen with the error budget at the least
      64-bit value leaves the budget at the greatest one, and the loop
      goes on. */
  lemma ErrAtMinInt64Wraps(s: State, cause: string)
    requires s.Running() && s.errorsLeft == MIN_INT64
    ensures Step(s, Err(cause)).errorsLeft == MAX_INT64
    ensures Step(s, Err(cause)).Running()
  {
  }

  /** While no budget wraps around, the budgets at any point equal the
      starting budgets minus the failures and the successes consumed so far. */
  lemma {:induction false} RunAccounting(s: State, events: seq<Event>)
    requires s.Running() && s.errorsLeft > MIN_INT64 && s.resultsLeft > MIN_INT64
    ensures var r := Run(s, events);
      var n := r.consumed - s.consumed;
      0 <= n <= |events| &&
      r.errorsLeft == s.errorsLeft - CountErr(events[..n]) &&
      r.resultsLeft == s.resultsLeft - CountOk(events[..n])
    decreases |events|
  {
    if events == [] {
      assert events[..0] == [];
    } else {
      var t := Step(s, events[0]);
      var r := Run(s, events);
      var n := r.consumed - s.consumed;
      if !t.Running() {
        assert r == t && n == 1;
        assert events[..1] == [events[0]] && events[..1][1..] == [];
      } else {
        RunAccounting(t, events[1..]);
        assert events[..n][0] == events[0] && events[..n][1..] == events[1..][..n - 1];
      }
    }
  }

  /** With both budgets at least 1, the budgets never go negative and at
      most one of them is used up. */
  lemma {:induction false} RunKeepsBudgets(s: State, events: seq<Event>)
    requires s.Running() && s.errorsLeft >= 1 && s.resultsLeft >= 1
    ensures var r := Run(s, events);
      r.errorsLeft >= 0 && r.resultsLeft >= 0 && r.errorsLeft + r.resultsLeft >= 1 &&
      (r.Running() ==> r.errorsLeft >= 1 && r.resultsLeft >= 1)
    decreases |events|
  {
    if events != [] {
      var t := Step(s, events[0]);
      if t.Running() {
        RunKeepsBudgets(t, events[1..]);
      }
    }
  }

  /** With both budgets at least 1, the loop consumes at most
      maxErrors + maxResults - 1 crawl results, whatever the stream. */
  lemma ResultEventsBound(s: State, events: seq<Event>)
    requires s.Running() && s.errorsLeft >= 1 && s.resultsLeft >= 1
    ensures var n := Run(s, events).consumed - s.consumed;
      0 <= n <= |events| &&
      CountErr(events[..n]) + CountOk(events[..n]) <= s.errorsLeft + s.resultsLeft - 1
  {
    RunAccounting(s, events);
    RunKeepsBudgets(s, events);
  }

  /** A session started with the source's quotas takes at most 109999
      crawl results before it stops. */
  lemma SessionResultsBound(events: seq<Event>)
    ensures var n := Run(Start(ERRORS_LIMIT, RESULTS_LIMIT), events).consumed;
      n <= |events| && CountErr(events[..n]) + CountOk(events[..n]) <= 109999
  {
    ResultEventsBound(Start(ERRORS_LIMIT, RESULTS_LIMIT), events);
  }

  // ---------------------------------------------------------------------
  // A closed results channel

  /** What a receive from the results channel yields once the channel is
      closed: the zero crawl result. Its error is nil, so it takes the
      success path; its message is the zero message. */
  const ZERO_RESULT: Event := Ok("")

  /** n receives from a closed results channel. */
  function ClosedReceives(n: nat): seq<Event>
  {
    seq(n, _ => ZERO_RESULT)
  }

  /** A stream of successes counts as that many successes and no failure. */
  lemma {:induction false} CountAllOk(events: seq<Event>)
    requires forall i :: 0 <= i < |events| ==> events[i].Ok?
    ensures CountOk(events) == |events| && CountErr(events) == 0
    decreases |events|
  {
    if events != [] {
      CountAllOk(events[1..]);
    }
  }

  /** Once the results channel is closed and no cancellation is seen, the
      loop drains the result budget with zero results and exits as
      GotMaxResults: after max(resultsLeft, 1) receives, with the error
      budget untouched. */
  lemma ClosedChannelDrains(s: State, n: nat)
    requires s.Running() && s.resultsLeft > MIN_INT64
    requires n >= (if s.resultsLeft >= 1 then s.resultsLeft else 1)
    ensures var k := if s.resultsLeft >= 1 then s.resultsLeft else 1;
      Run(s, ClosedReceives(n))
        == State(s.errorsLeft, s.resultsLeft - k, s.consumed + k, Some(GotMaxResults))
  {
    var k := if s.resultsLeft >= 1 then s.resultsLeft else 1;
    var before := ClosedReceives(k - 1);
    var after := ClosedReceives(n - k);
    assert ClosedReceives(n) == before + [ZERO_RESULT] + after;
    CountAllOk(before);
    ResultQuotaStop(s, before, "", after);
  }
}
