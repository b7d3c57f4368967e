/** What a whole traversal of an `OrderCollection` does against the test double when
    no call fails: which items come out, which calls go out, and how many. */
module Pagination {
  import opened Basics
  import opened Backend
  import opened Retry
  import opened Collection
  import opened Arith
  import RubyArray

  /** The items a traversal should yield: the source from the offset on, cut after
      `limit` items when the limit is not negative (so a zero limit gives nothing). */
  function Window<T>(cfg: Config, source: seq<T>): (r: seq<T>)
    requires 0 <= cfg.offset
  {
    source[Lo(cfg, |source|)..Hi(cfg, |source|)]
  }

  function Lo(cfg: Config, n: nat): (lo: nat)
    requires 0 <= cfg.offset
  {
    Min(cfg.offset, n)
  }

  /** Where the window ends in a source of `n` items. */
  function Hi(cfg: Config, n: nat): (hi: nat)
    requires 0 <= cfg.offset
    ensures Lo(cfg, n) <= hi <= n
  {
    if cfg.limit < 0 then n else Min(cfg.offset + cfg.limit, n)
  }

  /** A well-formed configuration against a backend whose calls all answer, whose
      reported total does not fall strictly inside the window (so the total check
      at test.rb:35 cannot stop the traversal early), with at least one attempt. */
  predicate Setting<T>(cfg: Config, b: Store<T>, retries: nat)
  {
    && 0 <= cfg.offset
    && 0 < cfg.pageSize
    && b.faults == map[]
    && 1 <= retries
    && (b.recordsTotal <= 0 || |Window(cfg, b.source)| <= b.recordsTotal)
  }

  /** Whether the traversal stops as soon as it has fetched the whole window, rather
      than after one more request that comes back empty. */
  predicate StopsAtEnd<T>(cfg: Config, b: Store<T>)
    requires 0 <= cfg.offset
  {
    var k := |Window(cfg, b.source)|;
    cfg.limit == k || (0 < k && b.recordsTotal == k)
  }

  /** The `i`-th call of a traversal that fetches `k` items in pages of the configured
      size: it starts `min(i * pageSize, k)` items past the offset. */
  function Planned(cfg: Config, k: nat, i: nat): (r: Request)
    requires 0 < cfg.pageSize
  {
    var at := Min(i * cfg.pageSize, k);
    Request(cfg.offset + at, NextLength(cfg.limit, at, cfg.pageSize), cfg.filters)
  }

  /** The calls of a complete traversal: one per page of the window and one more
      empty request unless the traversal stops at the end of the window. */
  predicate PlannedLog<T>(cfg: Config, b: Store<T>, log: seq<Request>)
    requires 0 <= cfg.offset && 0 < cfg.pageSize
  {
    var k := |Window(cfg, b.source)|;
    && |log| == CeilDiv(k, cfg.pageSize) + (if StopsAtEnd(cfg, b) then 0 else 1)
    && PlannedUpTo(cfg, k, log)
  }

  /** Each call so far is the planned one. */
  predicate PlannedUpTo(cfg: Config, k: nat, log: seq<Request>)
    requires 0 < cfg.pageSize
  {
    forall i :: 0 <= i < |log| ==> log[i] == Planned(cfg, k, i)
  }

  lemma PlannedAppend(cfg: Config, k: nat, log: seq<Request>, req: Request)
    requires 0 < cfg.pageSize && PlannedUpTo(cfg, k, log) && req == Planned(cfg, k, |log|)
    ensures PlannedUpTo(cfg, k, log + [req])
  {
  }

  /** The page count after one more page of `min(p, k - f)` items. */
  lemma CountAfterPage(m: nat, p: nat, f: nat, k: nat)
    requires 0 < p && m * p == f < k
    ensures f + Min(p, k - f) < k ==> (m + 1) * p == f + Min(p, k - f)
    ensures k <= f + Min(p, k - f) ==> m + 1 == CeilDiv(k, p)
  {
    assert (m + 1) * p == m * p + p;
    if k <= f + Min(p, k - f) {
      CeilDivExact(k, p, m + 1);
    }
  }

  /** How many window items have been yielded when the traversal is at `c`. */
  function Consumed<T>(c: Cursor<T>): (r: int)
  {
    if |c.data| == 0 then c.fetched else c.fetched - |c.data| + c.index + 1
  }

  /** The invariant of the loop in `each`: the buffer is the last page fetched, which
      ends `fetched` items into the window, and the requests so far are the planned
      ones. */
  ghost predicate Good<T>(cfg: Config, b: Store<T>, retries: nat, c: Cursor<T>)
    requires Setting(cfg, b, retries)
  {
    BufferOk(cfg, b, retries, c) && RequestsOk(cfg, b, retries, c)
  }

  /** The buffer is the last page fetched and `total` is the server's count once a
      page has arrived. */
  ghost predicate BufferOk<T>(cfg: Config, b: Store<T>, retries: nat, c: Cursor<T>)
    requires Setting(cfg, b, retries)
  {
    var w := Window(cfg, b.source);
    && 0 <= c.fetched <= |w|
    && |c.data| <= c.fetched
    && c.data == w[c.fetched - |c.data| .. c.fetched]
    && (|c.data| == 0 ==> c.fetched == 0 && c.index == 0 && c.log == [])
    && (0 < |c.data| ==> c.index < |c.data|)
    && (c.fetched == 0 ==> c.total == -1)
    && (0 < c.fetched ==> c.total == b.recordsTotal)
  }

  /** Every page before the last was full and was requested with the configured page
      size; the page size has only been shrunk by the request that reached the limit. */
  ghost predicate RequestsOk<T>(cfg: Config, b: Store<T>, retries: nat, c: Cursor<T>)
    requires Setting(cfg, b, retries)
  {
    var k := |Window(cfg, b.source)|;
    var p := cfg.pageSize;
    && 0 <= c.fetched <= k
    && (c.pageSize == p || (0 < cfg.limit && c.fetched == k && cfg.limit - k < c.pageSize < p))
    && (if c.fetched < k then |c.log| * p == c.fetched else |c.log| == CeilDiv(k, p))
    && PlannedUpTo(cfg, k, c.log)
  }

  /** Where the window sits in the source and how its length relates to the limit. */
  lemma WindowShape<T>(cfg: Config, source: seq<T>)
    requires 0 <= cfg.offset
    ensures var k := |Window(cfg, source)|;
            && (0 < k ==> cfg.offset < |source|)
            && (cfg.offset <= |source| ==> cfg.offset + k <= |source|)
            && (0 <= cfg.limit ==> k <= cfg.limit)
            && (cfg.limit != k ==> |source| <= cfg.offset + k)
            && (0 < cfg.limit && cfg.offset < |source| ==> k == Min(cfg.limit, |source| - cfg.offset))
            && (cfg.limit < 0 && cfg.offset < |source| ==> k == |source| - cfg.offset)
    ensures cfg.offset < |source| ==>
              forall j :: 0 <= j < |Window(cfg, source)| ==> Window(cfg, source)[j] == source[cfg.offset + j]
  {
  }

  /** The length requested at `fetched` items into a window of `k` items that is
      not yet exhausted, and how many items the double answers with. */
  lemma PageArith(cfg: Config, n: nat, k: nat, f: int)
    requires 0 <= cfg.offset && 0 < cfg.pageSize
    requires k == Hi(cfg, n) - Lo(cfg, n)
    requires 0 <= f < k
    ensures var size := NextLength(cfg.limit, f, cfg.pageSize);
            var g := Min(size, n - cfg.offset - f);
            && cfg.offset < n
            && 0 < size
            && g == Min(cfg.pageSize, k - f)
            && (size != cfg.pageSize ==> 0 < cfg.limit && f + g == k && cfg.limit - k < size < cfg.pageSize)
  {
  }

  /** The cursor after a request at `fetched` items that the double answers. */
  function AfterFetch<T>(cfg: Config, b: Store<T>, c: Cursor<T>): (r: Cursor<T>)
  {
    var size := NextLength(cfg.limit, c.fetched, c.pageSize);
    var req := Request(c.fetched + cfg.offset, size, cfg.filters);
    var page := Normalize(Response(RubyArray.Slice(b.source, req.start, size), b.recordsTotal, b.recordsFiltered));
    c.(index := 0, pageSize := size, log := c.log + [req], data := page.data,
       fetched := c.fetched + |page.data|, total := b.recordsTotal, filtered := b.recordsFiltered)
  }

  /** One loop iteration that requests a page from a backend that answers. */
  lemma FetchAnswered<T>(cfg: Config, b: Store<T>, retries: nat, c: Cursor<T>)
    requires b.faults == map[] && 1 <= retries
    requires |c.data| <= c.index + 1 && c.fetched != c.total && c.fetched != cfg.limit
    ensures var next := AfterFetch(cfg, b, c);
            Advance(cfg, b, retries, c) == if |next.data| == 0 then Stop(next) else Yield(next.data[0], next)
  {
    var size := NextLength(cfg.limit, c.fetched, c.pageSize);
    var req := Request(c.fetched + cfg.offset, size, cfg.filters);
    AnswerReturnedAtOnce(b, |c.log|, req, retries);
  }

  /** The double's answer to a request inside the window is the next piece of the
      window. */
  lemma AnswerInWindow<T>(cfg: Config, source: seq<T>, f: int, size: int)
    requires 0 <= cfg.offset && 0 <= f && 0 < size && cfg.offset + f < |source|
    requires f + Min(size, |source| - cfg.offset - f) <= |Window(cfg, source)|
    ensures RubyArray.Slice(source, f + cfg.offset, size)
            == Some(Window(cfg, source)[f .. f + Min(size, |source| - cfg.offset - f)])
  {
    var lo := Lo(cfg, |source|);
    var hi := Hi(cfg, |source|);
    var g := Min(size, |source| - cfg.offset - f);
    assert lo == cfg.offset;
    var answer := RubyArray.Slice(source, f + cfg.offset, size).value;
    forall j | 0 <= j < g
      ensures answer[j] == source[lo..hi][f .. f + g][j]
    {
    }
    assert answer == source[lo..hi][f .. f + g];
  }

  /** A request made while the window is not exhausted brings back the next full
      page of the window, or the rest of the window if that is shorter. */
  lemma FetchInWindow<T>(cfg: Config, b: Store<T>, c: Cursor<T>)
    requires 0 <= cfg.offset && 0 < cfg.pageSize && c.pageSize == cfg.pageSize
    requires 0 <= c.fetched < |Window(cfg, b.source)|
    ensures var g := Min(cfg.pageSize, |Window(cfg, b.source)| - c.fetched);
            && AfterFetch(cfg, b, c).fetched == c.fetched + g
            && AfterFetch(cfg, b, c).data == Window(cfg, b.source)[c.fetched .. c.fetched + g]
  {
    var f := c.fetched;
    var k := |Window(cfg, b.source)|;
    var size := NextLength(cfg.limit, f, c.pageSize);
    PageArith(cfg, |b.source|, k, f);
    AnswerInWindow(cfg, b.source, f, size);
  }

  lemma GoodAfterFetch<T>(cfg: Config, b: Store<T>, retries: nat, c: Cursor<T>)
    requires Setting(cfg, b, retries) && Good(cfg, b, retries, c)
    requires c.fetched < |Window(cfg, b.source)|
    ensures Good(cfg, b, retries, AfterFetch(cfg, b, c))
  {
    FetchInWindow(cfg, b, c);
    RequestsAfterFetch(cfg, b, retries, c);
  }

  lemma RequestsAfterFetch<T>(cfg: Config, b: Store<T>, retries: nat, c: Cursor<T>)
    requires Setting(cfg, b, retries) && Good(cfg, b, retries, c)
    requires c.fetched < |Window(cfg, b.source)|
    ensures RequestsOk(cfg, b, retries, AfterFetch(cfg, b, c))
  {
    var k := |Window(cfg, b.source)|;
    var f := c.fetched;
    var p := cfg.pageSize;
    var next := AfterFetch(cfg, b, c);
    FetchInWindow(cfg, b, c);
    PageArith(cfg, |b.source|, k, f);
    CountAfterPage(|c.log|, p, f, k);
    PlannedAppend(cfg, k, c.log, next.log[|c.log|]);
    assert next.log == c.log + [next.log[|c.log|]];
  }

  /** The first page fetched while the window is not yet exhausted: its first item is
      the next item of the window, and the invariant still holds. */
  lemma FetchStep<T>(cfg: Config, b: Store<T>, retries: nat, c: Cursor<T>)
    requires Setting(cfg, b, retries) && Good(cfg, b, retries, c)
    requires |c.data| <= c.index + 1 && c.fetched < |Window(cfg, b.source)|
    ensures var next := AfterFetch(cfg, b, c);
            && Advance(cfg, b, retries, c) == Yield(Window(cfg, b.source)[Consumed(c)], next)
            && Good(cfg, b, retries, next)
            && Consumed(next) == Consumed(c) + 1
  {
    var f := c.fetched;
    assert Consumed(c) == f;
    assert c.fetched != cfg.limit by {
      WindowShape(cfg, b.source);
    }
    FetchAnswered(cfg, b, retries, c);
    FetchInWindow(cfg, b, c);
    GoodAfterFetch(cfg, b, retries, c);
  }

  /** An iteration that yields the next buffered item. */
  lemma InPageStep<T>(cfg: Config, b: Store<T>, retries: nat, c: Cursor<T>)
    requires Setting(cfg, b, retries) && Good(cfg, b, retries, c)
    requires c.index + 1 < |c.data|
    ensures var next := c.(index := c.index + 1);
            && Advance(cfg, b, retries, c) == Yield(Window(cfg, b.source)[Consumed(c)], next)
            && Good(cfg, b, retries, next)
            && Consumed(next) == Consumed(c) + 1
  {
    WindowShape(cfg, b.source);
  }

  /** The window has been fetched and the traversal stops without another request. */
  lemma EndStop<T>(cfg: Config, b: Store<T>, retries: nat, c: Cursor<T>)
    requires Setting(cfg, b, retries) && Good(cfg, b, retries, c)
    requires |c.data| <= c.index + 1 && c.fetched == |Window(cfg, b.source)| && StopsAtEnd(cfg, b)
    ensures var last := c.(index := c.index + 1);
            && Advance(cfg, b, retries, c) == Stop(last)
            && Consumed(c) == |Window(cfg, b.source)|
            && PlannedLog(cfg, b, last.log)
            && 0 < last.pageSize <= cfg.pageSize
  {
  }

  /** The window has been fetched but neither the limit nor the server's total says
      so: one more request is made, it comes back empty, and the traversal stops. */
  lemma FinalFetch<T>(cfg: Config, b: Store<T>, retries: nat, c: Cursor<T>)
    requires Setting(cfg, b, retries) && Good(cfg, b, retries, c)
    requires |c.data| <= c.index + 1 && c.fetched == |Window(cfg, b.source)| && !StopsAtEnd(cfg, b)
    ensures var last := AfterFetch(cfg, b, c);
            && Advance(cfg, b, retries, c) == Stop(last)
            && Consumed(c) == |Window(cfg, b.source)|
            && PlannedLog(cfg, b, last.log)
            && 0 < last.pageSize <= cfg.pageSize
  {
    assert c.fetched != cfg.limit;
    assert c.fetched != c.total;
    FetchAnswered(cfg, b, retries, c);
    assert |b.source| <= c.fetched + cfg.offset by {
      WindowShape(cfg, b.source);
    }
    NothingPastEnd(b.source, c.fetched + cfg.offset, NextLength(cfg.limit, c.fetched, c.pageSize));
    assert AfterFetch(cfg, b, c).data == [];
    FinalRequest(cfg, b, retries, c);
  }

  /** A request starting at or past the end of the source is answered with nothing. */
  lemma NothingPastEnd<T>(source: seq<T>, start: int, length: int)
    requires |source| <= start
    ensures RubyArray.Slice(source, start, length) == None || RubyArray.Slice(source, start, length) == Some([])
  {
  }

  /** The extra request made after the window is fetched is the last planned one. */
  lemma FinalRequest<T>(cfg: Config, b: Store<T>, retries: nat, c: Cursor<T>)
    requires Setting(cfg, b, retries) && Good(cfg, b, retries, c)
    requires c.fetched == |Window(cfg, b.source)| && !StopsAtEnd(cfg, b)
    ensures var last := AfterFetch(cfg, b, c);
            && PlannedLog(cfg, b, last.log)
            && 0 < last.pageSize <= cfg.pageSize
  {
    var k := |Window(cfg, b.source)|;
    var p := cfg.pageSize;
    WindowShape(cfg, b.source);
    var last := AfterFetch(cfg, b, c);
    var m := |c.log|;
    CeilDivCovers(k, p);
    assert Min(m * p, k) == k;
    PlannedAppend(cfg, k, c.log, last.log[m]);
    assert last.log == c.log + [last.log[m]];
  }

  /** The rest of the traversal from `c` yields the rest of the window, ends
      normally, and makes exactly the planned requests. */
  ghost predicate RestOk<T>(cfg: Config, b: Store<T>, retries: nat, c: Cursor<T>)
    requires Setting(cfg, b, retries)
  {
    var r := Traverse(cfg, b, retries, c);
    && r.end == Completed
    && 0 <= Consumed(c) <= |Window(cfg, b.source)|
    && r.items == Window(cfg, b.source)[Consumed(c)..]
    && PlannedLog(cfg, b, r.log)
    && 0 < r.pageSize <= cfg.pageSize
  }

  lemma YieldThenRest<T>(cfg: Config, b: Store<T>, retries: nat, c: Cursor<T>, next: Cursor<T>)
    requires Setting(cfg, b, retries)
    requires 0 <= Consumed(c) < |Window(cfg, b.source)| && Consumed(next) == Consumed(c) + 1
    requires Advance(cfg, b, retries, c) == Yield(Window(cfg, b.source)[Consumed(c)], next)
    requires RestOk(cfg, b, retries, next)
    ensures RestOk(cfg, b, retries, c)
  {
    var w := Window(cfg, b.source);
    var rest := Traverse(cfg, b, retries, next);
    assert Traverse(cfg, b, retries, c) == Run([w[Consumed(c)]] + rest.items, rest.log, rest.pageSize, rest.end);
    assert w[Consumed(c)..] == [w[Consumed(c)]] + w[Consumed(c) + 1..];
  }

  lemma StopRest<T>(cfg: Config, b: Store<T>, retries: nat, c: Cursor<T>, last: Cursor<T>)
    requires Setting(cfg, b, retries)
    requires Consumed(c) == |Window(cfg, b.source)|
    requires Advance(cfg, b, retries, c) == Stop(last)
    requires PlannedLog(cfg, b, last.log) && 0 < last.pageSize <= cfg.pageSize
    ensures RestOk(cfg, b, retries, c)
  {
  }

  /** From any cursor satisfying the invariant, the rest of the traversal yields the
      rest of the window, ends normally, and makes exactly the planned requests. */
  lemma {:induction false} TraverseGood<T>(cfg: Config, b: Store<T>, retries: nat, c: Cursor<T>)
    requires Setting(cfg, b, retries) && Good(cfg, b, retries, c)
    decreases Remaining(|b.source|, cfg.offset + c.fetched), |c.data| - c.index
    ensures RestOk(cfg, b, retries, c)
  {
    if c.index + 1 < |c.data| {
      InPageStep(cfg, b, retries, c);
      var next := c.(index := c.index + 1);
      TraverseGood(cfg, b, retries, next);
      YieldThenRest(cfg, b, retries, c, next);
    } else if c.fetched < |Window(cfg, b.source)| {
      FetchStep(cfg, b, retries, c);
      var next := AfterFetch(cfg, b, c);
      TraverseGood(cfg, b, retries, next);
      YieldThenRest(cfg, b, retries, c, next);
    } else if StopsAtEnd(cfg, b) {
      EndStop(cfg, b, retries, c);
      StopRest(cfg, b, retries, c, c.(index := c.index + 1));
    } else {
      FinalFetch(cfg, b, retries, c);
      StopRest(cfg, b, retries, c, AfterFetch(cfg, b, c));
    }
  }
}
