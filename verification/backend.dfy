/** The remote order listing as the test double defines it: a fixed ordered source,
    answered by slicing, with constant record counts, plus a schedule of calls that
    raise instead of answering. */
module Backend {
  import opened Basics
  import RubyArray

  /** Server-side filters; the collection forwards them and never looks inside. */
  type Filters = map<string, string>

  /** One call `get_next_orders(start, length, **filters)`. */
  datatype Request = Request(start: int, length: int, filters: Filters)

  /** What a call can raise: connection refused (the transient error the retry loop
      rescues), `StopIteration` (which `pull_data` lets through but the `loop do` of
      `each` rescues, ending the loop normally), or anything else (propagated
      unchanged). */
  datatype Fault = ConnectionRefused | StopIteration | Other(name: string)

  /** A response hash; `data` may be missing (`nil`). */
  datatype Response<T> = Response(data: Option<seq<T>>, recordsTotal: int, recordsFiltered: int)

  datatype Reply<T> = Answered(response: Response<T>) | Threw(fault: Fault)

  /** The double: `source` is the (already filtered) ordered data, the two counts are
      reported verbatim on every answer, and call number `k` of a traversal raises
      `faults[k]` when `k` is scheduled to fail. */
  datatype Store<T> = Store(source: seq<T>, recordsTotal: int, recordsFiltered: int, faults: map<nat, Fault>)

  /** Answer call number `call`; the double ignores the filters. A call scheduled
      to fail raises its fault; any other call is answered with the fixed counts and
      at most `length` consecutive items of the source from the start, or no item
      list at all when Ruby's `Array#[]` gives `nil`. */
  function Serve<T>(b: Store<T>, call: nat, req: Request): (r: Reply<T>)
    ensures r.Threw? <==> call in b.faults
    ensures r.Threw? ==> r.fault == b.faults[call]
    ensures r.Answered? ==>
              && r.response.recordsTotal == b.recordsTotal
              && r.response.recordsFiltered == b.recordsFiltered
              && (r.response.data.Some? <==> 0 <= req.length && -|b.source| <= req.start <= |b.source|)
  {
    if call in b.faults then Threw(b.faults[call])
    else Answered(Response(RubyArray.Slice(b.source, req.start, req.length), b.recordsTotal, b.recordsFiltered))
  }

  /** An answered call returns at most the requested number of items, and they are
      consecutive items of the source from the (normalised) start. */
  lemma ServeAnswersSlice<T>(b: Store<T>, call: nat, req: Request)
    requires call !in b.faults && 0 <= req.length && -|b.source| <= req.start <= |b.source|
    ensures var items := Serve(b, call, req).response.data.value;
            var from := if req.start < 0 then req.start + |b.source| else req.start;
            && |items| <= req.length
            && 0 <= from && from + |items| <= |b.source|
            && forall i :: 0 <= i < |items| ==> items[i] == b.source[from + i]
  {
  }
}
