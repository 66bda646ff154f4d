# Crawl result aggregator and signal dispatch, in Dafny

This project models the two pieces of the crawler's `main.go` that have checkable
behaviour, and proves properties of them.

- **The result aggregator** (`watchCrawler`). One goroutine consumes crawl
  results and watches the session's cancellation context. It owns two quotas:
  the errors it may still see and the results it still wants. A failed result
  spends one error. If the error budget is then at or below zero the loop stops.
  Otherwise the success path is skipped. A successful result spends one result
  and stops the loop when that budget is at or below zero. A cancelled context
  stops the loop at once. Every exit closes the done channel exactly once
  (`defer close(readersDone)`).
  In the model, Go's `select` between the context and the results channel
  becomes one stream of events that is already interleaved:
  `Event = Cancel | Ok(msg) | Err(cause)`.
  `Aggregator.Step` and `Aggregator.Run` give the loop's meaning as functions.
  `Aggregator.WatchCrawler` is the loop as the source writes it. It is a method
  that mutates its copies of the two budgets, and it is proved equal to `Run`.
  It also counts how many times the done channel is closed.
  The budgets are Go `int`s. The model assumes a 64-bit platform, where a
  decrement wraps from the least value to the greatest.
- **The signal dispatch** (`watchSignals`). SIGINT cancels the session that owns
  the handler. SIGUSR1 starts a new lite session. Every other signal does
  nothing.

Facts about the code that the model keeps:

- The code stops when a budget is `<= 0` after the decrement. Starting budgets
  of 0 or less therefore stop on the first matching result, unless the budget
  is the least 64-bit value, which wraps to the greatest.
- SIGTERM is subscribed at main.go:114 but has no `case`. It cancels nothing.
- Nothing in the loop tests for a closed results channel. A receive from a
  closed channel yields the zero crawl result, whose error is nil, so it takes
  the success path. Once the channel is closed, the loop spends one result per
  receive and exits as "got max results", unless it sees the cancellation
  first. `Aggregator.ClosedChannelDrains` states this.
- A stream that simply ends means no further event has arrived yet. The loop
  is then still waiting, and the done channel is not closed.

## Model

| member | source | states |
|---|---|---|
| `Aggregator.Dec` | main.go:129 | `x--` on a 64-bit Go `int`: the result is the 64-bit value congruent to x - 1 modulo 2^64, and it is below x unless x is the least value |
| `Aggregator.Step` | main.go:122-143 | one iteration: Cancel exits as Cancelled with both budgets unchanged; Err spends one error, leaves the result budget alone and exits exactly when the error budget is now <= 0; Ok spends one result, leaves the error budget alone and exits exactly when the result budget is now <= 0; one event is consumed |
| `Aggregator.Run` | main.go:122-144 | the loop over a stream: an exited loop consumes nothing more; a loop that exits has consumed at least one event; a loop still running has consumed the whole stream, so the done signal never comes without a cause |
| `Aggregator.WatchCrawler` | main.go:117-148 | the imperative loop's final budgets, event count and exit are exactly `Run` from the starting budgets, and the done channel is closed once if the loop exited and never otherwise |
| `Aggregator.RunAppend` | main.go:122-144 | events are taken strictly one at a time in order: running over `a + b` is running over `a`, then over `b` |
| `Aggregator.StoppedIgnoresRest` | main.go:124-142 | once the loop has exited, appending further events changes nothing |
| `Aggregator.RunWithinBudgets` | main.go:127-142 | with no cancellation, fewer failures than the error budget and fewer successes than the result budget, the whole stream is consumed; each failure costs exactly one error and each success exactly one result |
| `Aggregator.ErrorQuotaStop` | main.go:128-135 | for an error budget N above the least 64-bit value: with N >= 1 the loop exits as ErrorsExceeded right on the N-th failure, and with N <= 1 on the first one; the error budget is then <= 0, the result budget has paid for the successes before it, and no later event is consumed |
| `Aggregator.ResultQuotaStop` | main.go:137-142 | the same for successes, for a result budget M above the least 64-bit value: with M >= 1 the loop exits as GotMaxResults on the M-th success, and with M <= 1 on the first one; nothing after it is consumed |
| `Aggregator.CancelStop` | main.go:123-125 | a cancellation seen by a running loop ends it as Cancelled after one more consumed event, with both budgets as they were, whatever follows |
| `Aggregator.ErrAtMinInt64Wraps` | main.go:129-130 | a failure seen with the error budget at the least 64-bit value wraps it to the greatest, and the loop does not stop |
| `Aggregator.RunAccounting` | main.go:127-142 | when no budget starts at the least 64-bit value, each budget equals its starting value minus the failures (or successes) among the consumed events |
| `Aggregator.RunKeepsBudgets` | main.go:127-142 | with both budgets starting at 1 or more, neither goes negative, at most one is used up, and both stay >= 1 while the loop runs |
| `Aggregator.ResultEventsBound` | main.go:127-142 | with both budgets starting at 1 or more, the loop consumes at most maxErrors + maxResults - 1 crawl results |
| `Aggregator.SessionResultsBound` | main.go:13-19 | a session started with the source's quotas (100000 errors, 10000 results) consumes at most 109999 crawl results |
| `Aggregator.ClosedChannelDrains` | main.go:127-142 | once the results channel is closed, each receive yields the zero result, which takes the success path; with no cancellation the loop exits as GotMaxResults after max(resultsLeft, 1) receives, with the error budget untouched and the result budget spent (result budget above the least 64-bit value) |
| `Signals.Dispatch` | main.go:101-110 | SIGINT, and only SIGINT, cancels the session; SIGUSR1, and only SIGUSR1, starts a lite session; every other signal does nothing |
| `Signals.SubscribedActions` | main.go:114 | among the subscribed signals, SIGTERM is exactly the one that does nothing |
| `Signals.Actions` | main.go:100-111 | the handler loop acts on the received signals one by one, in order, each by `Dispatch` |
| `Signals.CancelsIffInterrupted` | main.go:100-106 | a stream of received signals cancels the session if and only if it contains a SIGINT |

## Left out

- Flag parsing, the check for a missing URL and `os.Exit` in `init` (main.go:32-44): process start-up I/O.
- Wall-clock timing and all `log` output: these have no effect on the loop's behaviour.
- Goroutines, channel blocking, `signal.Notify` and context propagation: Go's choice between two ready `select` cases is the order of the event stream, and the stream is given rather than produced by concurrent crawl tasks.
- `startCrawler`, `liteCrawler` and the global `Crawler` handle (main.go:50-93): they sequence calls into code that is not part of this model.
- The crawl engine (`newCrawler`, `copyCrawler`, `crawler.run`, `crawlResult`): it is not part of this model, so depth bounds are not modelled.
- The zero crawl result's message is modelled as the empty string. The message has no effect on the loop.
- 32-bit targets: there Go's `int` is 32-bit and a budget wraps at -2^31, not at the least 64-bit value. The model covers 64-bit platforms only.
- Signals.Actions: does not model that `liteCrawler()` runs inside the handler loop and blocks it until the lite session ends. Signals that arrive meanwhile are not received by that handler, and the model only lists the actions taken on signals that were received.
- Signal numbers are the Linux values; other platforms number them differently, which changes nothing in the dispatch.
