/** Ruby's `Array#[start, length]`, the operation the backend double answers with. */
module RubyArray {
  import opened Basics

  /** `a[start, length]`: a negative start counts from the end; the answer is `nil`
      when the length is negative or the start lies outside `-|a| .. |a|`; a start
      equal to `|a|` gives the empty array; otherwise at most `length` elements
      beginning at the start. */
  function Slice<T>(a: seq<T>, start: int, length: int): (r: Option<seq<T>>)
    ensures r.Some? <==> 0 <= length && -|a| <= start <= |a|
    ensures r.Some? ==>
              var from := if start < 0 then start + |a| else start;
              && |r.value| == Min(length, |a| - from)
              && forall i :: 0 <= i < |r.value| ==> r.value[i] == a[from + i]
  {
    var from := if start < 0 then start + |a| else start;
    if length < 0 || from < 0 || |a| < from then None
    else Some(a[from .. from + Min(length, |a| - from)])
  }

  /** Two requests where the second starts where the first's answer ended read the
      same elements as one request for the combined length: successive pages
      neither overlap nor leave a gap. */
  lemma {:induction false} AdjacentSlices<T>(a: seq<T>, start: int, m: int, n: int)
    requires 0 <= start <= |a| && 0 <= m && 0 <= n
    ensures Slice(a, start, m).Some?
    ensures Slice(a, start + |Slice(a, start, m).value|, n).Some?
    ensures Slice(a, start, m).value + Slice(a, start + |Slice(a, start, m).value|, n).value
            == Slice(a, start, m + n).value
  {
    var first := Slice(a, start, m).value;
    var second := Slice(a, start + |first|, n).value;
    var both := Slice(a, start, m + n).value;
    assert |first + second| == |both|;
    forall i | 0 <= i < |both|
      ensures (first + second)[i] == both[i]
    {
      if i >= |first| {
        assert second[i - |first|] == a[start + |first| + (i - |first|)];
      }
    }
  }
}
