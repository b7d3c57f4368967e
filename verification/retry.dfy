/** `OrderCollection#pull_data`: one page request, meant to be attempted up to
    `retries` times while the backend refuses the connection. The loop as written
    never retries; both are modelled. */
module Retry {
  import opened Basics
  import opened Backend

  /** A response after `result[:data] ||= []`: the item list is always present. */
  datatype Page<T> = Page(data: seq<T>, recordsTotal: int, recordsFiltered: int)

  /** How a pull ends: a page, an error that escapes, or the retry loop running out
      of iterations and handing back its receiver, the Integer `count`. */
  datatype Pulled<T> = Fetched(page: Page<T>) | Failed(fault: Fault) | FellThrough(count: nat)

  /** Every backend call a pull made (one per attempt) and how it ended. */
  datatype Pull<T> = Pull(calls: seq<Request>, outcome: Pulled<T>)

  /** The attempt count when `MAX_RETRIES` is not set. */
  const DefaultRetries: nat := 3

  /** `result[:data] ||= []`: a missing item list reads as empty; the items, when
      present, and both counts pass through unchanged. */
  function Normalize<T>(resp: Response<T>): (r: Page<T>)
    ensures resp.data.Some? ==> r.data == resp.data.value
    ensures resp.data.None? ==> r.data == []
    ensures r.recordsTotal == resp.recordsTotal && r.recordsFiltered == resp.recordsFiltered
  {
    match resp.data
    case Some(items) => Page(items, resp.recordsTotal, resp.recordsFiltered)
    case None => Page([], resp.recordsTotal, resp.recordsFiltered)
  }

  /** The loop `retries.to_i.times do |t| ... end` exactly as written, from iteration
      `t` on. `count` is `retries.to_i`, the number of iterations; `bound` is the
      `retries` that the rescue clause compares `t` against. On connection refused the
      clause runs `next unless t < bound`: it moves on to the next iteration only when
      `t < bound` is false, and otherwise reaches `raise e`. */
  function TimesAsWritten<T>(b: Store<T>, first: nat, req: Request, count: nat, bound: int, t: nat): (r: Pull<T>)
    requires t <= count
    decreases count - t
    ensures forall i :: 0 <= i < |r.calls| ==> r.calls[i] == req
    ensures r.outcome.FellThrough? ==> r.outcome.count == count
  {
    if t == count then Pull([], FellThrough(count))
    else
      match Serve(b, first + t, req)
      case Answered(resp) => Pull([req], Fetched(Normalize(resp)))
      case Threw(f) =>
        if f.ConnectionRefused? && !(t < bound) then
          var rest := TimesAsWritten(b, first, req, count, bound, t + 1);
          Pull([req] + rest.calls, rest.outcome)
        else
          Pull([req], Failed(f))
  }

  /** The loop as written makes at most one call per remaining iteration. */
  lemma {:induction false} AsWrittenBounded<T>(b: Store<T>, first: nat, req: Request, count: nat, bound: int, t: nat)
    requires t <= count
    decreases count - t
    ensures |TimesAsWritten(b, first, req, count, bound, t).calls| <= count - t
  {
    if t < count && Serve(b, first + t, req) == Threw(ConnectionRefused) && !(t < bound) {
      AsWrittenBounded(b, first, req, count, bound, t + 1);
    }
  }

  /** `pull_data` as written; `first` numbers its first backend call. With
      `MAX_RETRIES` unset, `retries` is the Integer 3 and `retries.to_i` is the same
      number, so the loop's count and the rescue clause's bound agree. */
  function PullDataAsWritten<T>(b: Store<T>, first: nat, req: Request, retries: nat): (r: Pull<T>)
    ensures |r.calls| <= retries
    ensures |r.calls| == if retries == 0 then 0 else 1
    ensures forall i :: 0 <= i < |r.calls| ==> r.calls[i] == req
  {
    AsWrittenBounded(b, first, req, retries, retries, 0);
    TimesAsWritten(b, first, req, retries, retries, 0)
  }

  /** As written, every iteration has `t < retries`, so the rescue clause never takes
      `next`: `pull_data` makes no call with zero attempts and exactly one call
      otherwise, and behaves exactly as the intended `pull_data` allowed a single
      attempt. Connection refused is never retried. */
  lemma AsWrittenIsOneAttempt<T>(b: Store<T>, first: nat, req: Request, retries: nat)
    ensures retries == 0 ==> PullDataAsWritten(b, first, req, retries) == Pull([], FellThrough(0))
    ensures 1 <= retries ==> PullDataAsWritten(b, first, req, retries) == PullData(b, first, req, 1)
  {
  }

  /** As written, a refusal on the first call escapes `pull_data` at once, after
      that one call, however many attempts are allowed. */
  lemma AsWrittenRaisesAtOnce<T>(b: Store<T>, first: nat, req: Request, retries: nat)
    requires 1 <= retries
    requires first in b.faults && b.faults[first] == ConnectionRefused
    ensures PullDataAsWritten(b, first, req, retries) == Pull([req], Failed(ConnectionRefused))
  {
  }

  /** The intended loop: attempt number `call` with `left` attempts still allowed.
      A refusal is retried while attempts remain and re-raised on the last one; any
      other error escapes at once; an answer ends the loop with its data normalised. */
  function Attempts<T>(b: Store<T>, call: nat, req: Request, left: nat): (r: Pull<T>)
    requires left >= 1
    decreases left
    ensures 1 <= |r.calls| <= left
    ensures forall i :: 0 <= i < |r.calls| ==> r.calls[i] == req
    ensures forall k :: call <= k < call + |r.calls| - 1 ==> Serve(b, k, req) == Threw(ConnectionRefused)
    ensures !r.outcome.FellThrough?
    ensures r.outcome.Fetched? ==>
              var last := Serve(b, call + |r.calls| - 1, req);
              && last.Answered?
              && r.outcome.page.data == (if last.response.data.Some? then last.response.data.value else [])
              && r.outcome.page.recordsTotal == last.response.recordsTotal
              && r.outcome.page.recordsFiltered == last.response.recordsFiltered
    ensures r.outcome.Failed? ==> Serve(b, call + |r.calls| - 1, req) == Threw(r.outcome.fault)
    ensures r.outcome.Failed? && r.outcome.fault.ConnectionRefused? ==> |r.calls| == left
  {
    match Serve(b, call, req)
    case Answered(resp) => Pull([req], Fetched(Normalize(resp)))
    case Threw(f) =>
      if f.ConnectionRefused? && left > 1 then
        var rest := Attempts(b, call + 1, req, left - 1);
        Pull([req] + rest.calls, rest.outcome)
      else
        Pull([req], Failed(f))
  }

  /** `pull_data` as intended: at most `retries` calls with the same request; the first
      answer is returned at once with a missing item list read as empty; an error other
      than connection refused escapes from the attempt that raised it; connection
      refused escapes only from the `retries`-th attempt. With no attempts allowed the
      loop falls through with nothing to return. */
  function PullData<T>(b: Store<T>, first: nat, req: Request, retries: nat): (r: Pull<T>)
    ensures |r.calls| <= retries
    ensures forall i :: 0 <= i < |r.calls| ==> r.calls[i] == req
    ensures r.outcome.FellThrough? <==> retries == 0
    ensures retries > 0 ==> 1 <= |r.calls|
    ensures forall k :: first <= k < first + |r.calls| - 1 ==> Serve(b, k, req) == Threw(ConnectionRefused)
    ensures r.outcome.Fetched? ==>
              var last := Serve(b, first + |r.calls| - 1, req);
              && last.Answered?
              && r.outcome.page.data == (if last.response.data.Some? then last.response.data.value else [])
              && r.outcome.page.recordsTotal == last.response.recordsTotal
              && r.outcome.page.recordsFiltered == last.response.recordsFiltered
    ensures r.outcome.Failed? ==> Serve(b, first + |r.calls| - 1, req) == Threw(r.outcome.fault)
    ensures r.outcome.Failed? && r.outcome.fault.ConnectionRefused? ==> |r.calls| == retries
  {
    if retries == 0 then Pull([], FellThrough(0)) else Attempts(b, first, req, retries)
  }

  /** A backend that refuses every attempt: the intended loop makes exactly `retries`
      calls and then surfaces connection refused. The loop as written surfaces it
      after the first call (`AsWrittenRaisesAtOnce`). */
  lemma {:induction false} ExhaustedRetriesRaise<T>(b: Store<T>, first: nat, req: Request, retries: nat)
    requires retries >= 1
    requires forall k :: first <= k < first + retries ==> k in b.faults && b.faults[k] == ConnectionRefused
    ensures PullData(b, first, req, retries) == Pull(seq(retries, _ => req), Failed(ConnectionRefused))
  {
    RefusedAttempts(b, first, req, retries);
  }

  lemma {:induction false} RefusedAttempts<T>(b: Store<T>, call: nat, req: Request, left: nat)
    requires left >= 1
    requires forall k :: call <= k < call + left ==> k in b.faults && b.faults[k] == ConnectionRefused
    decreases left
    ensures Attempts(b, call, req, left) == Pull(seq(left, _ => req), Failed(ConnectionRefused))
  {
    assert call in b.faults;
    if left > 1 {
      RefusedAttempts(b, call + 1, req, left - 1);
      assert [req] + seq(left - 1, _ => req) == seq(left, _ => req);
    }
  }

  /** A refusal followed by an answer: the intended loop, allowed at least two
      attempts, retries once and returns the second call's answer, where the loop as
      written lets the refusal escape (`AsWrittenRaisesAtOnce`). */
  lemma RefusalRecovered<T>(b: Store<T>, first: nat, req: Request, retries: nat)
    requires 2 <= retries
    requires first in b.faults && b.faults[first] == ConnectionRefused
    requires first + 1 !in b.faults
    ensures var resp := Serve(b, first + 1, req).response;
            PullData(b, first, req, retries) == Pull([req, req], Fetched(Normalize(resp)))
  {
  }

  /** An error other than connection refused on the first attempt is not retried. */
  lemma OtherFaultNotRetried<T>(b: Store<T>, first: nat, req: Request, retries: nat)
    requires retries >= 1
    requires first in b.faults && !b.faults[first].ConnectionRefused?
    ensures PullData(b, first, req, retries) == Pull([req], Failed(b.faults[first]))
  {
  }

  /** An answer on the first attempt is returned as is, without a retry, even when it
      carries no items; a missing item list becomes the empty page. */
  lemma AnswerReturnedAtOnce<T>(b: Store<T>, first: nat, req: Request, retries: nat)
    requires retries >= 1
    requires first !in b.faults
    ensures var resp := Serve(b, first, req).response;
            PullData(b, first, req, retries) == Pull([req], Fetched(Normalize(resp)))
    ensures Serve(b, first, req).response.data.None? ==>
              PullData(b, first, req, retries).outcome.page.data == []
  {
  }
}
