/** The examples of the RSpec suite, stated against the test double: the orders are
    the integers 1 to n, the double answers `data[start, length]` with fixed totals. */
module Scenarios {
  import opened Basics
  import opened Backend
  import opened Retry
  import opened Collection
  import opened Arith
  import opened Pagination
  import opened Properties

  /** `(1..n).to_a`. */
  function Orders(n: nat): (r: seq<int>)
    ensures |r| == n && forall i :: 0 <= i < n ==> r[i] == i + 1
  {
    seq(n, i => i + 1)
  }

  /** `(from..to).to_a`. */
  function Range(from: int, to: int): (r: seq<int>)
    ensures |r| == if from <= to then to - from + 1 else 0
    ensures forall i :: 0 <= i < |r| ==> r[i] == from + i
  {
    if from <= to then seq(to - from + 1, i => from + i) else []
  }

  /** The double over `(1..n).to_a` with the given `records_total` and
      `records_filtered`, answering every call. */
  function Double(n: nat, total: int, filtered: int): (r: Store<int>)
  {
    Store(Orders(n), total, filtered, map[])
  }

  /** The filters of the filtered examples. */
  function SomeFilter(): (r: Filters)
  {
    map["some_filter" := "some_value"]
  }

  /** Items of the source from position `from` on, as a range of order numbers. */
  lemma OrdersTail(n: nat, from: nat, to: nat)
    requires from <= to <= n
    ensures Orders(n)[from..to] == Range(from + 1, to)
  {
    assert Orders(n)[from..to] == Range(from + 1, to) by {
      forall i | 0 <= i < to - from
        ensures Orders(n)[from..to][i] == Range(from + 1, to)[i]
      {
      }
    }
  }

  /** "should return all orders". */
  lemma ReturnsAllOrders()
    ensures Each(New(), Double(100, 100, 100), DefaultRetries).items == Range(1, 100)
  {
    DefaultCollectionYieldsAll(Double(100, 100, 100));
    OrdersTail(100, 0, 100);
  }

  /** "only returns records after the offset", offset 85. */
  lemma ReturnsAfterOffset()
    ensures Each(New(85), Double(100, 100, 100), DefaultRetries).items == Range(86, 100)
  {
    var b := Double(100, 100, 100);
    assert |Window(New(85), b.source)| == 15;
    EachIsSourceSlice(New(85), b, DefaultRetries);
    OrdersTail(100, 85, 100);
  }

  /** "only returns records after the offset and before the limit", offset 25 and
      limit 50. */
  lemma ReturnsBetweenOffsetAndLimit()
    ensures Each(New(25, 50), Double(100, 100, 100), DefaultRetries).items == Range(26, 75)
  {
    var b := Double(100, 100, 100);
    assert |Window(New(25, 50), b.source)| == 50;
    EachIsSourceSlice(New(25, 50), b, DefaultRetries);
    OrdersTail(100, 25, 75);
  }

  /** "calls n times only based on batch size", page size 20: 100 / 20 calls. */
  lemma CallsPerPageSize()
    ensures |Each(New(pageSize := 20), Double(100, 100, 100), DefaultRetries).log| == 100 / 20
  {
    UnboundedFetchCount(New(pageSize := 20), Double(100, 100, 100), DefaultRetries);
    CeilDivExact(100, 20, 5);
  }

  /** "calls n times only based on batch size", limit 50 and page size 20: 50 / 20
      rounded up. The collection is left with page size 10, so a second `to_a` on it
      yields the same 50 orders in 5 calls. */
  lemma CallsPerLimitAndPageSize()
    ensures var first := Each(New(limit := 50, pageSize := 20), Double(100, 100, 100), DefaultRetries);
            && |first.log| == 3
            && first.pageSize == 10
    ensures var again := Each(New(limit := 50, pageSize := 10), Double(100, 100, 100), DefaultRetries);
            && |again.log| == 5
            && again.items == Range(1, 50)
  {
    var b := Double(100, 100, 100);
    CeilDivExact(50, 20, 3);
    CeilDivExact(50, 10, 5);
    LimitedFetchCount(New(limit := 50, pageSize := 20), b, DefaultRetries);
    LimitedFinalPageSize(New(limit := 50, pageSize := 20), b, DefaultRetries);
    LimitedFetchCount(New(limit := 50, pageSize := 10), b, DefaultRetries);
    assert |Window(New(limit := 50, pageSize := 10), b.source)| == 50;
    EachIsSourceSlice(New(limit := 50, pageSize := 10), b, DefaultRetries);
    OrdersTail(100, 0, 50);
  }

  /** "should return 50 orders": 50 orders behind a reported total of 100, with a
      filter that every call carries. */
  lemma ReturnsFilteredOrders()
    ensures var r := Each(New(filters := SomeFilter()), Double(50, 100, 50), DefaultRetries);
            && r.items == Range(1, 50)
            && CarriesFilters(r.log, 0, SomeFilter())
  {
    var b := Double(50, 100, 50);
    assert |Window(New(filters := SomeFilter()), b.source)| == 50;
    EachIsSourceSlice(New(filters := SomeFilter()), b, DefaultRetries);
    OrdersTail(50, 0, 50);
  }

  /** "only pulls the remaining": offset 75 into 78 orders. */
  lemma PullsTheRemaining()
    ensures Each(New(75, filters := SomeFilter()), Double(78, 100, 78), DefaultRetries).items == [76, 77, 78]
  {
    var b := Double(78, 100, 78);
    assert |Window(New(75, filters := SomeFilter()), b.source)| == 3;
    EachIsSourceSlice(New(75, filters := SomeFilter()), b, DefaultRetries);
    OrdersTail(78, 75, 78);
  }

  /** "raises expected error": every call refused. With the intended retry loop,
      three attempts are made at offset 0 and connection refused reaches the caller
      with nothing yielded. The loop as written raises the same error after the first
      call (`AsWrittenRaisesAtOnce`). */
  lemma RaisesExpectedError()
    ensures var b := Store(Orders(100), 100, 100, map[0 := ConnectionRefused, 1 := ConnectionRefused, 2 := ConnectionRefused]);
            var r := Each(New(), b, DefaultRetries);
            && r.items == []
            && r.log == [Request(0, 10, map[]), Request(0, 10, map[]), Request(0, 10, map[])]
            && r.end == Raised(ConnectionRefused)
  {
    var b := Store(Orders(100), 100, 100, map[0 := ConnectionRefused, 1 := ConnectionRefused, 2 := ConnectionRefused]);
    RefusingBackendRaises(New(), b, DefaultRetries);
  }
}
