# OrderCollection: a paging iterator over an order-listing endpoint

`OrderCollection` (test.rb) is a Ruby `Enumerable`. It presents one ordered stream of
orders to its consumer. Behind that stream it issues a series of bounded
`APIClient.get_next_orders(start, length, **filters)` calls:
- The first call starts at the configured offset. Each later call starts where the
  items fetched so far end.
- With a positive limit, a page is shrunk so that no call reaches past the limit.
- The loop stops when the server's reported total or the limit has been reached,
  or when a call returns an empty page.
- `pull_data` wraps each call in a `MAX_RETRIES.times` loop (default 3) with a
  rescue of `Errno::ECONNREFUSED`, and reads a missing `:data` as an empty list.
  The loop is evidently meant to retry a refused call. As written, the rescue
  clause re-raises on the first refusal, so `pull_data` makes at most one call
  (see Findings).

The model is a functional state machine. Its modules:
- `Backend` is the backend the RSpec suite installs at test.rb:84-90. It holds a
  fixed source sequence, its `records_total` and `records_filtered`, and a table of
  calls that raise. A call raises connection refused, `StopIteration`, or any
  other error. It answers call `k` with Ruby's `source[start, length]`, which is
  modelled exactly in `RubyArray.Slice`.
- `Retry` models `pull_data` twice: once as written, never retrying, and once as
  intended, retrying a refused call up to `MAX_RETRIES` attempts in all (see
  Findings).
- `Collection` models `each`. `Advance` is one iteration of its `loop do` over an
  immutable cursor. The cursor holds the locals of `each`, the instance variable
  `@page_size`, and the log of every backend call made. `Traverse` runs the loop to
  its end. `Each` is a fresh traversal and returns:
  - the items yielded, in order;
  - the calls made;
  - the value `@page_size` is left with;
  - how the traversal ended: normally (which includes a `StopIteration` that
    `loop` rescues), with an escaping error, or with `pull_data`'s Integer
    fall-through reaching `result[:data]`.
- `Pagination` proves the loop invariant. From any cursor that satisfies it, the
  rest of the traversal yields the rest of the *window* and makes exactly the
  planned calls. The window is the source from the offset on, cut after `limit`
  items when the limit is not negative.
- `Properties` states what a whole traversal does.
- `Scenarios` restates each RSpec example as a lemma over the double built from
  `(1..n).to_a`.

Two things the code does are kept as written:
- The limit is a three-way sentinel. A negative limit means no cap. Zero stops at
  once, because `records_fetched == @limit` holds before the first call. A positive
  limit caps the items.
- `@page_size` persists. Line 38 writes the shrunk length back into the instance
  variable, so a second traversal of the same collection starts from the shrunk
  size. `Each` returns the page size it leaves behind.
  `SecondTraversalSameItems` shows that the second traversal yields the same items,
  and `Scenarios.CallsPerLimitAndPageSize` shows, for limit 50 and page size 20,
  that it makes 5 calls where the first made 3.

## Model

| member | source | states |
|---|---|---|
| `RubyArray.Slice` | test.rb:86 | `a[start, length]` is nil exactly when the length is negative or the start lies outside `-size..size`. Otherwise it holds the `min(length, size - from)` elements from the normalised start, in order. |
| `RubyArray.AdjacentSlices` | test.rb:86 | Two adjacent slices of lengths m and n together are the slice of length m + n. |
| `Backend.Serve` | test.rb:84-90 | The double raises the fault scheduled for call `k` exactly when one is scheduled. Otherwise it answers with the fixed `records_total` and `records_filtered`. The answer has an item list exactly when Ruby's `data[start, length]` is not nil. |
| `Backend.ServeAnswersSlice` | test.rb:86 | An answered call returns at most `length` items. They are consecutive items of the source, starting at the normalised start. |
| `Retry.TimesAsWritten` | test.rb:57-67 | The retry loop exactly as written, from iteration `t`: a refusal moves on to the next iteration only when `t < retries` is false, and otherwise re-raises. Every call sends the same request. Falling through returns the iteration count. |
| `Retry.AsWrittenBounded` | test.rb:57 | The loop as written makes at most one call per remaining iteration. |
| `Retry.PullDataAsWritten` | test.rb:54-68 | `pull_data` as written makes no call with zero attempts and exactly one call otherwise, never more than `retries`. Every call sends the same request. |
| `Retry.AsWrittenIsOneAttempt` | test.rb:57-66 | As written, `pull_data` makes no call with zero attempts and then falls through with 0. With one or more attempts it behaves exactly as the intended `pull_data` allowed a single attempt: one call, and no retry. |
| `Retry.AsWrittenRaisesAtOnce` | test.rb:59-63 | As written, a refusal on the first call escapes after that one call, however many attempts are allowed. |
| `Retry.Attempts` | test.rb:57-66 | The intended loop makes between 1 and `left` calls, all with the same request. Every attempt before the last was refused. An answer is returned with nil data read as `[]`. An error is the one the last call raised. Connection refused escapes only after all `left` attempts. The loop never falls through. |
| `Retry.PullData` | test.rb:54-68 | Intended `pull_data`: at most `retries` identical calls, and at least one when `retries > 0`. All but the last were refused. The outcome is the last call's answer, normalised, or its error. Connection refused escapes only from the `retries`-th attempt. The loop falls through exactly when `retries == 0`. |
| `Retry.ExhaustedRetriesRaise` | test.rb:57-63 | With at least one attempt, against a backend that refuses every attempt, the intended `pull_data` makes exactly `retries` calls and raises connection refused. |
| `Retry.RefusalRecovered` | test.rb:57-66 | With at least two attempts, a refusal followed by an answer is retried once, and the intended `pull_data` returns the second call's answer after two calls. |
| `Retry.RefusedAttempts` | test.rb:61-63 | `left` consecutive refusals use all `left` attempts and end in connection refused. |
| `Retry.OtherFaultNotRetried` | test.rb:58-64 | An error other than connection refused escapes on the first attempt, after one call. |
| `Retry.Normalize` | test.rb:60 | `result[:data] ||= []`: missing data reads as `[]`, present data is kept unchanged, and both counts pass through unchanged. |
| `Retry.AnswerReturnedAtOnce` | test.rb:59-66 | An answer on the first attempt is returned at once, after one call, even when it is empty. A missing `:data` becomes `[]`. |
| `Collection.New` | test.rb:16-21 | `initialize` stores its four arguments unchanged as the configuration. The defaults are offset 0, limit -1, page size 10 and no filters. |
| `Collection.Start` | test.rb:24-28 | `each` starts with nothing fetched, total and filtered count -1, an empty buffer, index 0 and no calls made. `@page_size` is as configured. |
| `Collection.NextLength` | test.rb:38-42 | With a non-positive limit the page size is kept. With a positive limit the length is `min(page size, limit - fetched)`. When the page size is positive and fewer than `limit` items have been fetched, that length is positive and ends at or before the limit. |
| `Collection.Advance` | test.rb:30-50 | One iteration never rewrites earlier calls. Every call it adds starts at `offset + records_fetched` and carries the configured filters. `@page_size` becomes the length of the last call added. When it yields, the termination measure decreases. |
| `Collection.Traverse` | test.rb:30-51 | The rest of a traversal keeps the calls already made at the front of the log. |
| `Collection.TraverseForwardsFilters` | test.rb:43 | Every call the rest of a traversal makes carries the configured filters unchanged. |
| `Collection.TraversePageSize` | test.rb:38-43 | After a traversal, `@page_size` holds the length of its last call. If no call was made and at least one attempt is allowed, it is unchanged. |
| `Collection.Each` | test.rb:23-52 | Every call of a traversal, the first included, carries the configured filters. |
| `Pagination.InPageStep` | test.rb:31-33 | With items left in the buffer, an iteration yields the next window item and keeps the invariant. |
| `Pagination.FetchStep` | test.rb:35-49 | With the buffer exhausted and the window not yet fetched, an iteration fetches the next page of the window. It yields that page's first item and keeps the invariant. |
| `Pagination.EndStop` | test.rb:35 | The loop stops after the window without another call when the limit equals the window size, or when the window is not empty and the reported total equals its size. With an empty window and a total of 0, one call is still made. |
| `Pagination.FinalFetch` | test.rb:35-48 | Otherwise one more call is made. It starts at the end of the window, comes back empty, and stops the loop. |
| `Pagination.TraverseGood` | test.rb:30-51 | From any cursor that satisfies the invariant, the traversal ends normally and yields exactly the rest of the window. Its calls are exactly the planned ones: `ceil(window / page size)`, plus one empty call unless it stops at the end. |
| `Properties.EachYieldsWindow` | test.rb:23-52 | Against a backend that answers, `each` yields exactly the window, in order and each item once, and ends normally. It makes exactly the planned calls. `@page_size` is left positive and no larger than configured. |
| `Properties.EachIsSourceSlice` | test.rb:93-113 | A negative limit yields `source[offset..]` and a zero limit yields nothing. A positive limit yields `source[offset .. min(offset + limit, size)]`. |
| `Properties.OffsetPastEndYieldsNothing` | test.rb:43-48 | An offset at or past the end yields nothing. Unless the limit is zero, that takes exactly one call at the offset. |
| `Properties.ZeroLimitYieldsNothing` | test.rb:35 | A zero limit yields nothing and makes no call, whatever the backend. |
| `Properties.FirstRequestAtOffset` | test.rb:37-43 | Whatever the backend does, the first call, if there is one, starts at the offset. It asks for the first page length and carries the filters. |
| `Properties.RequestsContiguous` | test.rb:43-45 | Each call after the first starts strictly after the one before it, exactly where that call's page ended. |
| `Properties.RequestsWithinLimit` | test.rb:38-42 | With a positive limit, every call asks for a positive number of items and ends at or before `offset + limit`. |
| `Properties.UnboundedFetchCount` | test.rb:115-123 | With no limit, from offset 0 of a non-empty source whose total is reported exactly, a traversal makes `ceil(size / page size)` calls. |
| `Properties.LimitedFetchCount` | test.rb:125-134 | With a positive limit that fits in the source, a traversal makes `ceil(limit / page size)` calls. |
| `Properties.LimitedFinalPageSize` | test.rb:38-42 | After such a traversal, `@page_size` is `limit - (calls - 1) * page size`: the shrunk last length. |
| `Properties.SecondTraversalSameItems` | test.rb:38 | A second traversal starts from the page size the first left behind. It yields the same items and ends normally. |
| `Properties.DefaultCollectionYieldsAll` | test.rb:16-21 | `OrderCollection.new` with its defaults (offset 0, limit -1, page size 10, no filters, 3 attempts) yields the whole source. |
| `Properties.RefusingBackendRaises` | test.rb:156-163 | With at least one attempt, every call refused and a non-zero limit, nothing is yielded. The first request is sent `retries` times, and connection refused ends the traversal. |
| `Properties.StopIterationEndsTraversal` | test.rb:30 | With at least one attempt and a non-zero limit, a `StopIteration` from the first call is not retried. `loop` rescues it, so the traversal ends normally after that one call, with nothing yielded. |
| `Properties.OtherFaultAborts` | test.rb:58-64 | With at least one attempt and a non-zero limit, any other error on the first call (not connection refused and not `StopIteration`) ends the traversal after that one call, with nothing yielded, and escapes to the caller. |
| `Properties.NoAttemptsNoPage` | test.rb:43-44 | With a non-zero limit and zero attempts allowed, no call is made. The traversal ends where line 44 reads `[:data]` of the Integer 0. With a zero limit, line 35 stops the loop first. |
| `Scenarios.ReturnsAllOrders` | test.rb:93-96 | Over 100 orders, the default collection yields `1..100`. |
| `Scenarios.ReturnsAfterOffset` | test.rb:98-104 | Offset 85 yields `86..100`. |
| `Scenarios.ReturnsBetweenOffsetAndLimit` | test.rb:106-113 | Offset 25 with limit 50 yields `26..75`. |
| `Scenarios.CallsPerPageSize` | test.rb:115-123 | Page size 20 over 100 orders makes 100 / 20 calls. |
| `Scenarios.CallsPerLimitAndPageSize` | test.rb:125-134 | Limit 50 with page size 20 makes 3 calls and leaves page size 10. The next traversal makes 5 calls and yields `1..50`. |
| `Scenarios.ReturnsFilteredOrders` | test.rb:137-144 | 50 orders with reported total 100 and a filter: `1..50` is yielded, and every call carries the filter. |
| `Scenarios.PullsTheRemaining` | test.rb:146-153 | Offset 75 into 78 orders yields `[76, 77, 78]`. |
| `Scenarios.RaisesExpectedError` | test.rb:156-163 | With every call refused: three identical calls at offset 0 for 10 items, nothing yielded, and connection refused surfaced. |

## Left out

- `APIClient.get_next_orders` (test.rb:4-11) is an empty stub. The backend is the test double at test.rb:84-90, given as a value. The double ignores the filters, and so does the model.
- `ENV['MAX_RETRIES']` and `to_i` (test.rb:55, 57): the attempt count is a parameter, with `DefaultRetries` = 3. When the variable is set, `retries` is a String and `t < retries` would raise an ArgumentError inside the rescue clause. That path is not modelled.
- Laziness and the coroutine suspension of `yield`: a traversal is modelled as running to its end. A consumer that stops pulling early is not modelled.
- The RSpec harness, its mocks and `byebug` (test.rb:1-2, 71-165) serve only as sources of the scenario lemmas.
- The Ruby exception hierarchy: a call fails with connection refused, with `StopIteration` (which `loop` rescues, so the traversal ends normally), or with some other named error. Subclasses of these are not modelled.
- `return result unless result.nil?` (test.rb:66): the double never answers nil. A nil answer would also fail at line 60 before reaching line 66.
- `records_filtered` is carried in the cursor, but nothing reads it.
- `Properties.EachYieldsWindow`: the whole-traversal properties assume a backend whose calls all answer, a non-negative offset and a positive page size. They also assume a reported total that does not fall strictly inside the window. `Advance` still models the early stop on such a total, a negative offset (through `RubyArray.Slice`) and a non-positive page size, but no lemma describes what a traversal yields in those cases.
- Ruby integers are unbounded, so no wrap-around is modelled.

## Findings

| source | as written | input that shows it | evidently intended | confidence | as-written member | corrected member |
|---|---|---|---|---|---|---|
| test.rb:57-63 | The rescue clause runs `next unless t < retries`. Inside `retries.times`, `t < retries` always holds, so `next` is never taken and `raise e` runs on the first refusal. `pull_data` never retries: it makes at most one call. | A backend that refuses call 0 and answers call 1, with 3 attempts. As written, connection refused escapes after one call. | A refused call is retried until an answer comes or `retries` attempts have been made. Here the second call's answer is returned. | high; not executed | `Retry.AsWrittenRaisesAtOnce` | `Retry.RefusalRecovered` |

The traversal in `Collection.Advance` uses the corrected `Retry.PullData`. It differs from the code on every refused call, not only when the attempts run out. Where the code would let the first refusal escape after one call, the traversal retries. So `Properties.RefusingBackendRaises` and `Scenarios.RaisesExpectedError` describe the intended loop, with `retries` calls. The code makes one call there and raises the same error (`Retry.AsWrittenRaisesAtOnce`).
