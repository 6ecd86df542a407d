/**
 * ChunkView: a lazy view that splits its source into consecutive sub-ranges
 * of `size` elements; the last one may be shorter.
 */
module ChunkViews {
  import opened Wrappers
  import StdRanges

  /** A chunk size the view accepts. */
  type PosNat = n: nat | n > 0 witness 1

  /** The message of the constructor's invalid_argument. */
  const ZeroSize := "Size cannot be 0"

  /** The concatenation of a sequence of chunks. */
  function Flatten<T>(chunks: seq<seq<T>>): seq<T> {
    if chunks == [] then [] else chunks[0] + Flatten(chunks[1..])
  }

  /** The reference split: `n` elements at a time, whatever is left as the last chunk. */
  function Chunks<T>(s: seq<T>, n: PosNat): seq<seq<T>>
    decreases |s|
  {
    if s == [] then []
    else if |s| <= n then [s]
    else [s[..n]] + Chunks(s[n..], n)
  }

  /** Concatenating the chunks gives back the source. */
  lemma {:induction false} ChunksFlatten<T>(s: seq<T>, n: PosNat)
    ensures Flatten(Chunks(s, n)) == s
  {
    if |s| > n {
      var rest := Chunks(s[n..], n);
      ChunksFlatten(s[n..], n);
      assert ([s[..n]] + rest)[1..] == rest;
      assert s == s[..n] + s[n..];
    }
  }

  /**
   * Every chunk but the last has exactly n elements, the last has 1..n, and
   * there are no chunks exactly when the source is empty.
   */
  lemma {:induction false} ChunksShape<T>(s: seq<T>, n: PosNat)
    ensures Chunks(s, n) == [] <==> s == []
    ensures forall i :: 0 <= i < |Chunks(s, n)| - 1 ==> |Chunks(s, n)[i]| == n
    ensures Chunks(s, n) != [] ==> 1 <= |Chunks(s, n)[|Chunks(s, n)| - 1]| <= n
  {
    if |s| > n {
      var rest := Chunks(s[n..], n);
      ChunksShape(s[n..], n);
      assert Chunks(s, n) == [s[..n]] + rest;
      forall i | 0 <= i < |Chunks(s, n)| - 1
        ensures |Chunks(s, n)[i]| == n
      {
        if i > 0 {
          assert Chunks(s, n)[i] == rest[i - 1];
        }
      }
    }
  }

  /** x / n is the q with q * n <= x < (q + 1) * n. */
  lemma DivIsUnique(x: nat, n: PosNat, q: nat)
    requires q * n <= x < q * n + n
    ensures x / n == q
  {
    var d, m := x / n, x % n;
    assert x == d * n + m && 0 <= m < n;
    if d < q {
      MulMonotone(d + 1, q, n);
      assert false;
    } else if d > q {
      MulMonotone(q + 1, d, n);
      assert false;
    }
  }

  lemma MulMonotone(a: nat, b: nat, n: nat)
    requires a <= b
    ensures a * n <= b * n
  {
  }

  /** There are ceil(|s| / n) chunks, the value ChunkView::size() computes. */
  lemma {:induction false} ChunksCount<T>(s: seq<T>, n: PosNat)
    ensures |Chunks(s, n)| == (|s| + n - 1) / n
  {
    if s == [] {
      DivIsUnique(n - 1, n, 0);
    } else if |s| <= n {
      DivIsUnique(|s| + n - 1, n, 1);
    } else {
      var k := |Chunks(s[n..], n)|;
      ChunksCount(s[n..], n);
      assert k == (|s| - n + n - 1) / n;
      assert k * n <= |s| - 1 < k * n + n;
      DivIsUnique(|s| + n - 1, n, k + 1);
    }
  }

  class ChunkView<T> {
    /** The wrapped source range. */
    const source: seq<T>
    /** The requested chunk size. */
    const size: PosNat

    constructor (range: seq<T>, size: PosNat)
      ensures source == range && this.size == size
    {
      source := range;
      this.size := size;
    }

    /** The constructor's check: a size of zero throws invalid_argument. */
    static method Create(range: seq<T>, size: nat) returns (r: Result<ChunkView<T>>)
      ensures size == 0 ==> r == Err(InvalidArgument(ZeroSize))
      ensures size > 0 ==> r.Ok? && fresh(r.value) && r.value.source == range && r.value.size == size
    {
      if size == 0 {
        return Err(InvalidArgument(ZeroSize));
      }
      var v := new ChunkView(range, size);
      return Ok(v);
    }

    /** begin(): a chunk cursor at the source start. */
    method Begin() returns (it: ChunkIterator<T>)
      ensures fresh(it) && it.Valid() && it.source == source && it.size == size
      ensures it.current == 0 && it.Remaining() == Chunks(source, size)
    {
      it := new ChunkIterator(source, size, 0, |source|);
    }

    /** end(): a chunk cursor at the source end. */
    method End() returns (it: ChunkIterator<T>)
      ensures fresh(it) && it.Valid() && it.source == source && it.size == size
      ensures it.current == |source| && it.Remaining() == []
    {
      it := new ChunkIterator(source, size, |source|, |source|);
    }

    /** size(): ceil(|source| / size), the number of chunks an iteration yields. */
    function Size(): (r: nat)
      ensures r == |Chunks(source, size)|
      ensures (r - 1) * size < |source| <= r * size
    {
      ChunksCount(source, size);
      ChunksShape(source, size);
      SizeBounds(source, size);
      (|source| + size - 1) / size
    }
  }

  /** The chunk count is the least r with |s| <= r * n. */
  lemma {:induction false} SizeBounds<T>(s: seq<T>, n: PosNat)
    ensures (|Chunks(s, n)| - 1) * n < |s| <= |Chunks(s, n)| * n
  {
    if |s| > n {
      SizeBounds(s[n..], n);
      assert |Chunks(s, n)| == 1 + |Chunks(s[n..], n)|;
    }
  }

  class ChunkIterator<T> {
    /** The source range the cursor walks. */
    const source: seq<T>
    const size: PosNat
    /** The start of the denoted chunk. */
    var current: nat
    /** The source end, where every advance stops. */
    const end: nat

    constructor (source: seq<T>, size: PosNat, current: nat, end: nat)
      ensures this.source == source && this.size == size
      ensures this.current == current && this.end == end
    {
      this.source := source;
      this.size := size;
      this.current := current;
      this.end := end;
    }

    ghost predicate Valid()
      reads this
    {
      current <= end == |source|
    }

    /** The chunks still to be yielded from this cursor on. */
    ghost function Remaining(): seq<seq<T>>
      reads this
      requires Valid()
    {
      Chunks(source[current..], size)
    }

    /** operator*: the sub-range from the cursor to at most `size` elements further; empty at the end. */
    function Deref(): (r: seq<T>)
      reads this
      requires Valid()
      requires current < end ==> size <= StdRanges.DifferenceMax
      ensures current < end ==> r == Remaining()[0]
      ensures current == end ==> r == []
    {
      if current == end then source[current..current]
      else source[current..StdRanges.AdvanceBounded(current, size, end)]
    }

    /** operator++: move to the next chunk, never past the source end. */
    method Advance()
      requires Valid()
      requires current < end ==> size <= StdRanges.DifferenceMax
      modifies this
      ensures Valid()
      ensures old(current) < end ==> current > old(current) && Remaining() == old(Remaining())[1..]
      ensures old(current) == end ==> current == end
    {
      ghost var rest := source[current..];
      current := StdRanges.AdvanceBounded(current, size, end);
      if |rest| > size {
        assert rest[size..] == source[current..];
      }
    }

    /**
     * operator==: compares the chunk starts only, which for two cursors of
     * one view is the same as having the same chunks still to yield. Against
     * a cursor at the source end it holds exactly when no chunk remains.
     */
    function Equals(other: ChunkIterator<T>): (r: bool)
      reads this, other
      requires Valid() && other.Valid() && source == other.source && size == other.size
      ensures r <==> Remaining() == other.Remaining()
      ensures other.current == other.end ==> (r <==> Remaining() == []) && (r <==> current == end)
    {
      ChunksShape(source[current..], size);
      ChunksFlatten(source[current..], size);
      ChunksFlatten(source[other.current..], size);
      current == other.current
    }
  }

  /** Everything a full iteration promises about the chunks it yields. */
  lemma CollectedChunks<T>(s: seq<T>, n: PosNat)
    ensures Flatten(Chunks(s, n)) == s
    ensures |Chunks(s, n)| == (|s| + n - 1) / n
    ensures forall i :: 0 <= i < |Chunks(s, n)| - 1 ==> |Chunks(s, n)[i]| == n
    ensures Chunks(s, n) != [] ==> 1 <= |Chunks(s, n)[|Chunks(s, n)| - 1]| <= n
  {
    ChunksFlatten(s, n);
    ChunksShape(s, n);
    ChunksCount(s, n);
  }

  /**
   * A range-for over the view: the chunks it yields are Chunks(source, size),
   * so they concatenate to the source, all but the last hold `size` elements,
   * the last holds 1..size, and their number is Size().
   */
  method Collect<T>(view: ChunkView<T>) returns (chunks: seq<seq<T>>)
    requires view.source != [] ==> view.size <= StdRanges.DifferenceMax
    ensures chunks == Chunks(view.source, view.size)
    ensures Flatten(chunks) == view.source
    ensures |chunks| == view.Size()
    ensures forall i :: 0 <= i < |chunks| - 1 ==> |chunks[i]| == view.size
    ensures chunks != [] ==> 1 <= |chunks[|chunks| - 1]| <= view.size
  {
    var it := view.Begin();
    var stop := view.End();
    chunks := Drain(it, stop);
    CollectedChunks(view.source, view.size);
  }

  /** The loop of a range-for: dereference and advance `it` until it equals `stop`. */
  method Drain<T>(it: ChunkIterator<T>, stop: ChunkIterator<T>) returns (chunks: seq<seq<T>>)
    requires it.Valid() && stop.Valid() && it != stop
    requires it.source == stop.source && it.size == stop.size && stop.current == stop.end
    requires it.source != [] ==> it.size <= StdRanges.DifferenceMax
    modifies it
    ensures chunks == old(it.Remaining())
  {
    chunks := [];
    while !it.Equals(stop)
      invariant it.Valid() && it.source == stop.source
      invariant chunks + it.Remaining() == old(it.Remaining())
      decreases |it.Remaining()|
    {
      var c := it.Deref();
      ghost var rest := it.Remaining();
      assert rest == [c] + rest[1..];
      chunks := chunks + [c];
      it.Advance();
    }
  }
}
