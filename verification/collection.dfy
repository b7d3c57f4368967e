/** `OrderCollection`: a configured, re-iterable sequence of orders that pages through
    the backend, one `loop do` iteration of `each` at a time. */
module Collection {
  import opened Basics
  import opened Backend
  import opened Retry
  import RubyArray

  /** The constructor's arguments. A positive `limit` caps the number of items; a
      negative one means no cap; zero yields nothing. */
  datatype Config = Config(offset: int, limit: int, pageSize: int, filters: Filters)

  /** `OrderCollection.new(offset = 0, limit = -1, page_size = 10, **filters)`. */
  function New(offset: int := 0, limit: int := -1, pageSize: int := 10, filters: Filters := map[]): (cfg: Config)
    ensures cfg.offset == offset && cfg.limit == limit && cfg.pageSize == pageSize && cfg.filters == filters
  {
    Config(offset, limit, pageSize, filters)
  }

  /** The state of one traversal: the locals of `each` plus `@page_size`, which the
      traversal writes back, and every backend call made so far. */
  datatype Cursor<T> = Cursor(fetched: int, total: int, filtered: int, data: seq<T>, index: nat,
                              pageSize: int, log: seq<Request>)

  /** The outcome of one loop iteration. */
  datatype Step<T> = Yield(item: T, next: Cursor<T>) | Stop(next: Cursor<T>) | Abort(end: End, next: Cursor<T>)

  /** How a traversal ends: normally, by an error escaping `pull_data`, or by line 44
      reading `[:data]` of the Integer that `pull_data` falls through with. `NoPage` is
      an error, not a quiet stop: `Integer#[]` given a Symbol raises `TypeError`, which
      escapes `each`. */
  datatype End = Completed | Raised(fault: Fault) | NoPage(count: nat)

  /** A whole traversal: the items yielded in order, every backend call, the value
      `@page_size` is left with, and how it ended. */
  datatype Run<T> = Run(items: seq<T>, log: seq<Request>, pageSize: int, end: End)

  /** The cursor `each` starts from: nothing fetched, no total known yet, an empty
      buffer, and `@page_size` as configured. */
  function Start<T>(cfg: Config): (r: Cursor<T>)
    ensures r.fetched == 0 && r.total == -1 && r.filtered == -1
    ensures r.data == [] && r.index == 0 && r.log == []
    ensures r.pageSize == cfg.pageSize
  {
    Cursor(0, -1, -1, [], 0, cfg.pageSize, [])
  }

  /** The length requested next. With a positive limit the page is shrunk so that
      the request ends exactly at the limit: the length is min(page size, limit -
      fetched), positive whenever fewer than `limit` items have been fetched. */
  function NextLength(limit: int, fetched: int, pageSize: int): (r: int)
    ensures limit <= 0 ==> r == pageSize
    ensures 0 < limit ==> r == Min(pageSize, limit - fetched)
    ensures 0 < limit && fetched < limit && 0 < pageSize ==> 0 < r <= pageSize && fetched + r <= limit
  {
    if fetched + pageSize > limit && limit > 0 then limit - fetched else pageSize
  }

  /** How far the next request's start is from the end of the source; every
      non-empty page brings it closer. */
  function Remaining(n: int, position: int): (r: nat)
  {
    if position < n then n - position else 0
  }

  /** One iteration of the loop in `each`. Either the next buffered item is yielded,
      or (buffer exhausted) the traversal stops because the server's total or the
      limit has been reached, or it requests the next page at offset + fetched and
      yields that page's first item, stopping on an empty page. */
  function Advance<T>(cfg: Config, b: Store<T>, retries: nat, c: Cursor<T>): (r: Step<T>)
    ensures c.log <= r.next.log
    ensures forall i :: |c.log| <= i < |r.next.log| ==>
              r.next.log[i].start == cfg.offset + c.fetched && r.next.log[i].filters == cfg.filters
    ensures |c.log| < |r.next.log| ==> r.next.pageSize == r.next.log[|r.next.log| - 1].length
    ensures 0 < retries && |r.next.log| == |c.log| ==> r.next.pageSize == c.pageSize
    ensures r.Yield? ==>
              || Remaining(|b.source|, cfg.offset + r.next.fetched) < Remaining(|b.source|, cfg.offset + c.fetched)
              || (&& Remaining(|b.source|, cfg.offset + r.next.fetched) == Remaining(|b.source|, cfg.offset + c.fetched)
                  && 0 <= |r.next.data| - r.next.index < |c.data| - c.index)
  {
    var index := c.index + 1;
    if index < |c.data| then
      if index >= cfg.limit && cfg.limit > 0 then Stop(c.(index := index))
      else Yield(c.data[index], c.(index := index))
    else if c.fetched == c.total || c.fetched == cfg.limit then
      Stop(c.(index := index))
    else
      var size := NextLength(cfg.limit, c.fetched, c.pageSize);
      var req := Request(c.fetched + cfg.offset, size, cfg.filters);
      var pull := PullData(b, |c.log|, req, retries);
      var c1 := c.(index := 0, pageSize := size, log := c.log + pull.calls);
      match pull.outcome
      case Failed(f) => if f.StopIteration? then Stop(c1) else Abort(Raised(f), c1)
      case FellThrough(n) => Abort(NoPage(n), c1)
      case Fetched(page) =>
        var c2 := c1.(data := page.data, fetched := c.fetched + |page.data|,
                      total := page.recordsTotal, filtered := page.recordsFiltered);
        if |page.data| == 0 then Stop(c2)
        else
          assert Remaining(|b.source|, cfg.offset + c2.fetched) < Remaining(|b.source|, cfg.offset + c.fetched) by {
            var answered := Serve(b, |c.log| + |pull.calls| - 1, req);
            assert answered.response.data == RubyArray.Slice(b.source, req.start, req.length);
          }
          Yield(page.data[0], c2)
  }

  /** Run the loop from cursor `c` to its end. The calls already made stay at the
      front of the log. */
  function Traverse<T>(cfg: Config, b: Store<T>, retries: nat, c: Cursor<T>): (r: Run<T>)
    decreases Remaining(|b.source|, cfg.offset + c.fetched), |c.data| - c.index
    ensures c.log <= r.log
  {
    var step := Advance(cfg, b, retries, c);
    if step.Yield? then
      var rest := Traverse(cfg, b, retries, step.next);
      Run([step.item] + rest.items, rest.log, rest.pageSize, rest.end)
    else
      Run([], step.next.log, step.next.pageSize, if step.Stop? then Completed else step.end)
  }

  /** Every call in `log` from position `from` on carries `filters`. */
  predicate CarriesFilters(log: seq<Request>, from: nat, filters: Filters)
  {
    forall i :: from <= i < |log| ==> log[i].filters == filters
  }

  /** Every call the rest of the traversal makes carries the configured filters. */
  lemma {:induction false} TraverseForwardsFilters<T>(cfg: Config, b: Store<T>, retries: nat, c: Cursor<T>)
    decreases Remaining(|b.source|, cfg.offset + c.fetched), |c.data| - c.index
    ensures CarriesFilters(Traverse(cfg, b, retries, c).log, |c.log|, cfg.filters)
  {
    var step := Advance(cfg, b, retries, c);
    if step.Yield? {
      TraverseForwardsFilters(cfg, b, retries, step.next);
      var r := Traverse(cfg, b, retries, c);
      forall i | |c.log| <= i < |r.log|
        ensures r.log[i].filters == cfg.filters
      {
        if i < |step.next.log| {
          assert r.log[i] == step.next.log[i];
        }
      }
    }
  }

  /** `@page_size` is left at the length of the last call made, and, when at least
      one attempt is allowed per page and no call is made, where it was. */
  lemma {:induction false} TraversePageSize<T>(cfg: Config, b: Store<T>, retries: nat, c: Cursor<T>)
    decreases Remaining(|b.source|, cfg.offset + c.fetched), |c.data| - c.index
    ensures var r := Traverse(cfg, b, retries, c);
            && (|c.log| < |r.log| ==> r.pageSize == r.log[|r.log| - 1].length)
            && (0 < retries && |r.log| == |c.log| ==> r.pageSize == c.pageSize)
  {
    var step := Advance(cfg, b, retries, c);
    if step.Yield? {
      TraversePageSize(cfg, b, retries, step.next);
      var r := Traverse(cfg, b, retries, c);
      var rest := Traverse(cfg, b, retries, step.next);
      assert r.log == rest.log && r.pageSize == rest.pageSize;
      assert step.next.log <= rest.log;
    } else {
      var r := Traverse(cfg, b, retries, c);
      assert r.log == step.next.log && r.pageSize == step.next.pageSize;
    }
  }

  /** `each` (and `to_a`): a fresh traversal with `retries` attempts per page. The
      returned page size is what `@page_size` holds afterwards, which the next
      traversal of the same collection starts from. Every call carries the
      configured filters. */
  function Each<T>(cfg: Config, b: Store<T>, retries: nat): (r: Run<T>)
    ensures CarriesFilters(r.log, 0, cfg.filters)
  {
    TraverseForwardsFilters(cfg, b, retries, Start(cfg));
    Traverse(cfg, b, retries, Start(cfg))
  }
}
