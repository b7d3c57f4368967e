/** Whole-traversal properties of `OrderCollection#each`: what comes out, which
    calls go out and how many, and what happens when the backend fails. */
module Properties {
  import opened Basics
  import opened Backend
  import opened Retry
  import opened Collection
  import opened Arith
  import opened Pagination

  /** The cursor `each` starts from satisfies the loop invariant. */
  lemma StartGood<T>(cfg: Config, b: Store<T>, retries: nat)
    requires Setting(cfg, b, retries)
    ensures Good(cfg, b, retries, Start<T>(cfg)) && Consumed(Start<T>(cfg)) == 0
  {
    CeilDivZero(cfg.pageSize);
  }

  /** Against a backend that answers, a traversal yields exactly the window of the
      source, in order and each item once, ends normally, makes exactly the planned
      calls, and leaves `@page_size` positive and no larger than configured. */
  lemma EachYieldsWindow<T>(cfg: Config, b: Store<T>, retries: nat)
    requires Setting(cfg, b, retries)
    ensures var r := Each(cfg, b, retries);
            && r.end == Completed
            && r.items == Window(cfg, b.source)
            && PlannedLog(cfg, b, r.log)
            && 0 < r.pageSize <= cfg.pageSize
  {
    StartGood(cfg, b, retries);
    TraverseGood(cfg, b, retries, Start(cfg));
  }

  /** The items are the source from the offset on: all of it with a negative limit,
      nothing with a zero limit, and at most `limit` items with a positive one. */
  lemma EachIsSourceSlice<T>(cfg: Config, b: Store<T>, retries: nat)
    requires Setting(cfg, b, retries) && cfg.offset < |b.source|
    ensures var items := Each(cfg, b, retries).items;
            && (cfg.limit < 0 ==> items == b.source[cfg.offset..])
            && (cfg.limit == 0 ==> items == [])
            && (0 < cfg.limit ==> items == b.source[cfg.offset .. Min(cfg.offset + cfg.limit, |b.source|)])
  {
    EachYieldsWindow(cfg, b, retries);
  }

  /** The first request of a traversal that will make one. */
  function FirstRequest(cfg: Config): (r: Request)
  {
    Request(cfg.offset, NextLength(cfg.limit, 0, cfg.pageSize), cfg.filters)
  }

  /** An offset at or past the end of the source yields nothing; unless the limit is
      zero, one request at the offset finds that out. */
  lemma OffsetPastEndYieldsNothing<T>(cfg: Config, b: Store<T>, retries: nat)
    requires Setting(cfg, b, retries) && |b.source| <= cfg.offset
    ensures Each(cfg, b, retries).items == []
    ensures cfg.limit != 0 ==>
              Each(cfg, b, retries).log == [FirstRequest(cfg)]
  {
    EachYieldsWindow(cfg, b, retries);
    CeilDivZero(cfg.pageSize);
    var log := Each(cfg, b, retries).log;
    if cfg.limit != 0 {
      assert |log| == 1 && log[0] == Planned(cfg, 0, 0);
    }
  }

  /** A zero limit stops the loop before any call, whatever the backend. */
  lemma ZeroLimitYieldsNothing<T>(cfg: Config, b: Store<T>, retries: nat)
    requires cfg.limit == 0
    ensures Each(cfg, b, retries) == Run([], [], cfg.pageSize, Completed)
  {
  }

  /** A request made while the window is not yet exhausted ends before the window
      does: a page of the configured size, cut at the end of the window. */
  lemma PlannedPage(cfg: Config, k: nat, i: nat)
    requires 0 <= cfg.offset && 0 < cfg.pageSize && i < CeilDiv(k, cfg.pageSize)
    ensures i * cfg.pageSize < k
    ensures Planned(cfg, k, i + 1).start == Planned(cfg, k, i).start + Min(cfg.pageSize, k - i * cfg.pageSize)
  {
    CeilDivTight(k, cfg.pageSize);
    MulMonotone(i, CeilDiv(k, cfg.pageSize) - 1, cfg.pageSize);
    assert (i + 1) * cfg.pageSize == i * cfg.pageSize + cfg.pageSize;
  }

  /** Each call starts where the page before it ended, so successive calls cover
      contiguous, non-overlapping stretches of the source, in order. */
  lemma RequestsContiguous<T>(cfg: Config, b: Store<T>, retries: nat, i: nat)
    requires Setting(cfg, b, retries)
    requires i + 1 < |Each(cfg, b, retries).log|
    ensures var log := Each(cfg, b, retries).log;
            var k := |Window(cfg, b.source)|;
            && log[i].start < log[i + 1].start
            && log[i + 1].start == log[i].start + Min(cfg.pageSize, k - (log[i].start - cfg.offset))
  {
    var k := |Window(cfg, b.source)|;
    EachYieldsWindow(cfg, b, retries);
    PlannedPage(cfg, k, i);
    var log := Each(cfg, b, retries).log;
    assert log[i] == Planned(cfg, k, i) && log[i + 1] == Planned(cfg, k, i + 1);
  }

  /** With a positive limit every call asks for a positive number of items and none
      reaches past the limit. */
  lemma RequestsWithinLimit<T>(cfg: Config, b: Store<T>, retries: nat, i: nat)
    requires Setting(cfg, b, retries) && 0 < cfg.limit
    requires i < |Each(cfg, b, retries).log|
    ensures var req := Each(cfg, b, retries).log[i];
            0 < req.length && req.start + req.length <= cfg.offset + cfg.limit
  {
    var k := |Window(cfg, b.source)|;
    var p := cfg.pageSize;
    EachYieldsWindow(cfg, b, retries);
    WindowShape(cfg, b.source);
    var log := Each(cfg, b, retries).log;
    assert log[i] == Planned(cfg, k, i);
    if i < CeilDiv(k, p) {
      PlannedPage(cfg, k, i);
    } else {
      assert i == CeilDiv(k, p) && !StopsAtEnd(cfg, b);
      CeilDivCovers(k, p);
    }
  }

  /** Without a limit, from the start of a source whose total the server reports
      exactly, the traversal makes `ceil(|source| / page size)` calls. */
  lemma UnboundedFetchCount<T>(cfg: Config, b: Store<T>, retries: nat)
    requires Setting(cfg, b, retries) && cfg.limit < 0 && cfg.offset == 0
    requires 0 < |b.source| == b.recordsTotal
    ensures |Each(cfg, b, retries).log| == CeilDiv(|b.source|, cfg.pageSize)
  {
    EachYieldsWindow(cfg, b, retries);
    WindowShape(cfg, b.source);
  }

  /** With a positive limit that fits in the source, the traversal makes
      `ceil(limit / page size)` calls. */
  lemma LimitedFetchCount<T>(cfg: Config, b: Store<T>, retries: nat)
    requires Setting(cfg, b, retries) && 0 < cfg.limit && cfg.offset + cfg.limit <= |b.source|
    ensures |Each(cfg, b, retries).log| == CeilDiv(cfg.limit, cfg.pageSize)
  {
    EachYieldsWindow(cfg, b, retries);
    WindowShape(cfg, b.source);
  }

  /** The last of `ceil(limit / page size)` planned calls over a window of `limit`
      items asks for what is left up to the limit. */
  lemma LastPlannedLength(cfg: Config)
    requires 0 <= cfg.offset && 0 < cfg.pageSize && 0 < cfg.limit
    ensures var n := CeilDiv(cfg.limit, cfg.pageSize);
            1 <= n && Planned(cfg, cfg.limit, n - 1).length == cfg.limit - (n - 1) * cfg.pageSize
  {
    var p := cfg.pageSize;
    var n := CeilDiv(cfg.limit, p);
    CeilDivTight(cfg.limit, p);
    CeilDivCovers(cfg.limit, p);
    assert n * p == (n - 1) * p + p;
  }

  /** After such a traversal `@page_size` holds the length of the last call, which
      ends exactly at the limit. */
  lemma LimitedFinalPageSize<T>(cfg: Config, b: Store<T>, retries: nat)
    requires Setting(cfg, b, retries) && 0 < cfg.limit && cfg.offset + cfg.limit <= |b.source|
    ensures Each(cfg, b, retries).pageSize == cfg.limit - (CeilDiv(cfg.limit, cfg.pageSize) - 1) * cfg.pageSize
  {
    var n := CeilDiv(cfg.limit, cfg.pageSize);
    LastPlannedLength(cfg);
    LimitedFetchCount(cfg, b, retries);
    EachYieldsWindow(cfg, b, retries);
    WindowShape(cfg, b.source);
    TraversePageSize(cfg, b, retries, Start(cfg));
    var r := Each(cfg, b, retries);
    assert r == Traverse(cfg, b, retries, Start(cfg));
    assert r.log[n - 1] == Planned(cfg, cfg.limit, n - 1);
  }

  /** A second traversal of the same collection starts from the page size the first
      left behind and still yields the same items. */
  lemma SecondTraversalSameItems<T>(cfg: Config, b: Store<T>, retries: nat)
    requires Setting(cfg, b, retries)
    ensures var first := Each(cfg, b, retries);
            var again := Each(cfg.(pageSize := first.pageSize), b, retries);
            && again.items == first.items
            && again.end == Completed
            && 0 < again.pageSize <= first.pageSize
  {
    EachYieldsWindow(cfg, b, retries);
    var first := Each(cfg, b, retries);
    var cfg2 := cfg.(pageSize := first.pageSize);
    assert Window(cfg2, b.source) == Window(cfg, b.source);
    EachYieldsWindow(cfg2, b, retries);
  }

  /** `OrderCollection.new` with no arguments yields the whole source. */
  lemma DefaultCollectionYieldsAll<T>(b: Store<T>)
    requires b.faults == map[] && (b.recordsTotal <= 0 || |b.source| <= b.recordsTotal)
    ensures Each(New(), b, DefaultRetries).items == b.source
  {
    assert Window(New(), b.source) == b.source;
    EachYieldsWindow(New(), b, DefaultRetries);
  }

  /** A backend that refuses the connection on every attempt: nothing is yielded,
      the first request is made `retries` times, and connection refused escapes. */
  lemma RefusingBackendRaises<T>(cfg: Config, b: Store<T>, retries: nat)
    requires cfg.limit != 0 && 1 <= retries
    requires forall k :: 0 <= k < retries ==> k in b.faults && b.faults[k] == ConnectionRefused
    ensures Each(cfg, b, retries)
            == Run([], seq(retries, _ => FirstRequest(cfg)), FirstRequest(cfg).length, Raised(ConnectionRefused))
  {
    ExhaustedRetriesRaise(b, 0, FirstRequest(cfg), retries);
  }

  /** Whatever the backend does, the first call of a traversal, when there is one,
      starts at the offset, asks for the first page length and carries the filters. */
  lemma FirstRequestAtOffset<T>(cfg: Config, b: Store<T>, retries: nat)
    ensures var log := Each(cfg, b, retries).log;
            0 < |log| ==> log[0] == FirstRequest(cfg)
  {
    var c := Start<T>(cfg);
    var step := Advance(cfg, b, retries, c);
    var r := Traverse(cfg, b, retries, c);
    assert Each(cfg, b, retries) == r;
    if 0 < |step.next.log| {
      assert r.log[0] == step.next.log[0];
    }
  }

  /** `StopIteration` from the first call passes through `pull_data` unretried and
      is rescued by `loop`: the traversal ends normally with nothing yielded. */
  lemma StopIterationEndsTraversal<T>(cfg: Config, b: Store<T>, retries: nat)
    requires cfg.limit != 0 && 1 <= retries
    requires 0 in b.faults && b.faults[0] == StopIteration
    ensures Each(cfg, b, retries) == Run([], [FirstRequest(cfg)], FirstRequest(cfg).length, Completed)
  {
    OtherFaultNotRetried(b, 0, FirstRequest(cfg), retries);
  }

  /** Any other error on the first call escapes at once, with nothing yielded. */
  lemma OtherFaultAborts<T>(cfg: Config, b: Store<T>, retries: nat)
    requires cfg.limit != 0 && 1 <= retries
    requires 0 in b.faults && b.faults[0].Other?
    ensures Each(cfg, b, retries) == Run([], [FirstRequest(cfg)], FirstRequest(cfg).length, Raised(b.faults[0]))
  {
    OtherFaultNotRetried(b, 0, FirstRequest(cfg), retries);
  }

  /** With no attempts allowed the loop in `pull_data` runs zero times and hands
      back the Integer 0, whose `[:data]` ends the traversal before any call. */
  lemma NoAttemptsNoPage<T>(cfg: Config, b: Store<T>)
    requires cfg.limit != 0
    ensures Each(cfg, b, 0) == Run([], [], FirstRequest(cfg).length, NoPage(0))
  {
  }
}
