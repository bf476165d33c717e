/** The batching loop of `create_vector_db`: the chunk texts, metadata and
    ids are handed to the store in slices of at most one hundred. */
module VectorDb {

  const BatchSize := 100

  /** One slice `[start, end)` of the chunk list. */
  datatype Span = Span(start: nat, end: nat)

  /** The span starting at `i`, cut short at the end of the list. */
  function SpanAt(i: nat, n: nat): Span {
    Span(i, if i + BatchSize < n then i + BatchSize else n)
  }

  /** The spans `range(0, n, 100)` produces, one per loop iteration. */
  method BatchSpans(n: nat) returns (spans: seq<Span>)
    ensures |spans| == (n + BatchSize - 1) / BatchSize
    ensures forall k :: 0 <= k < |spans| ==> spans[k] == SpanAt(k * BatchSize, n)
    ensures forall k :: 0 <= k < |spans| ==> spans[k].start < spans[k].end <= n
    ensures forall k :: 0 <= k < |spans| ==> spans[k].end - spans[k].start <= BatchSize
    ensures n > 0 ==> spans[0].start == 0 && spans[|spans| - 1].end == n
    ensures forall k :: 0 <= k < |spans| - 1 ==> spans[k].end == spans[k + 1].start
  {
    spans := [];
    var i := 0;
    while i < n
      invariant i == |spans| * BatchSize
      invariant i < n + BatchSize
      invariant forall k :: 0 <= k < |spans| ==> spans[k] == SpanAt(k * BatchSize, n)
      invariant forall k :: 0 <= k < |spans| ==> spans[k].start < spans[k].end <= n
      invariant |spans| > 0 ==> spans[|spans| - 1].end == if i < n then i else n
      invariant forall k :: 0 <= k < |spans| - 1 ==> spans[k].end == spans[k + 1].start
      decreases n - i
    {
      spans := spans + [SpanAt(i, n)];
      i := i + BatchSize;
    }
  }

  /** The items the spans hand over, concatenated in order. */
  function Gather<T>(xs: seq<T>, spans: seq<Span>): seq<T>
    requires forall k :: 0 <= k < |spans| ==> spans[k].start <= spans[k].end <= |xs|
    decreases |spans|
  {
    if spans == [] then [] else xs[spans[0].start..spans[0].end] + Gather(xs, spans[1..])
  }

  /** Contiguous spans from `from` to `to` hand over exactly `xs[from..to]`:
      every item once, in order. */
  lemma {:induction false} GatherContiguous<T>(xs: seq<T>, spans: seq<Span>, from: nat, to: nat)
    requires from <= to <= |xs|
    requires forall k :: 0 <= k < |spans| ==> spans[k].start <= spans[k].end <= |xs|
    requires spans == [] ==> from == to
    requires spans != [] ==> spans[0].start == from && spans[|spans| - 1].end == to
    requires forall k :: 0 <= k < |spans| - 1 ==> spans[k].end == spans[k + 1].start
    ensures Gather(xs, spans) == xs[from..to]
    decreases |spans|
  {
    if spans != [] {
      var rest := spans[1..];
      if rest == [] {
        assert spans[0].end == to;
      } else {
        assert rest[0].start == spans[0].end;
        assert rest[|rest| - 1] == spans[|spans| - 1];
        EndsGrow(rest);
        GatherContiguous(xs, rest, spans[0].end, to);
        assert xs[from..spans[0].end] + xs[spans[0].end..to] == xs[from..to];
      }
    }
  }

  /** Along contiguous spans the ends never decrease. */
  lemma {:induction false} EndsGrow(spans: seq<Span>)
    requires spans != []
    requires forall k :: 0 <= k < |spans| ==> spans[k].start <= spans[k].end
    requires forall k :: 0 <= k < |spans| - 1 ==> spans[k].end == spans[k + 1].start
    ensures spans[0].start <= spans[|spans| - 1].end
    decreases |spans|
  {
    if |spans| > 1 {
      EndsGrow(spans[1..]);
    }
  }

  /** The loop hands every item of a chunk list (the texts, the metadata or
      the ids, which have one length) to the store exactly once and in order. */
  method SpansCoverList<T>(xs: seq<T>) returns (spans: seq<Span>)
    ensures forall k :: 0 <= k < |spans| ==> spans[k].start < spans[k].end <= |xs|
    ensures forall k :: 0 <= k < |spans| ==> |xs[spans[k].start..spans[k].end]| <= BatchSize
    ensures Gather(xs, spans) == xs
  {
    spans := BatchSpans(|xs|);
    GatherContiguous(xs, spans, 0, |xs|);
  }
}
