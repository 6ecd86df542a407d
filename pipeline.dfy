/**
 * Composition: an adaptor is a value that holds the parameters it captured
 * at construction, and `range | adaptor` hands the range to that adaptor's
 * call operator. Views built this way are ranges again, so pipelines chain.
 */
module Pipelines {
  import opened Wrappers
  import StdRanges
  import Adaptors
  import AppendViews
  import ChunkViews
  import ConcatViews
  import OrderedViews

  /**
   * The adaptor objects, one case per adaptor, holding what each captured.
   * A is the accumulator of the seeded Aggregate; K and E are the key and
   * element types of ToUnorderedMap.
   */
  datatype Adaptor<!T, !A, K, E> =
    | Aggregate(func: (T, T) -> T, valueInit: T)
    | AggregateSeed(accumulate: (A, T) -> A, seed: A)
    | All(pred: T -> bool)
    | Any(pred: T -> bool)
    | Append(value: T)
    | Chunk(size: nat)
    | Concat(otherRange: seq<T>)
    | Contains(value: T)
    | Count
    | ElementAt(position: nat)
    | ElementAtOrDefault(position: nat)
    | First
    | FirstWhere(pred: T -> bool)
    | FirstOrDefault
    | FirstOrDefaultWhere(pred: T -> bool)
    | Last
    | LastWhere(pred: T -> bool)
    | LastOrDefault
    | LastOrDefaultWhere(pred: T -> bool)
    | Max(projection: T -> int)
    | Min(projection: T -> int)
    | Order(comparer: OrderedViews.Comparer, projection: T -> int)
    | ToUnorderedMap(keySelector: T -> K, elementSelector: T -> E)

  /** What `range | adaptor` returns, by the kind of adaptor. */
  datatype Output<T, A, K, E> =
    | Element(element: T)
    | Accumulated(accumulated: A)
    | Flag(flag: bool)
    | Number(number: nat)
    | Found(found: Result<T>)
    | Optional(optional: Option<T>)
    | Appended(appended: AppendViews.AppendView<T>)
    | Chunked(chunked: Result<ChunkViews.ChunkView<T>>)
    | Concatenated(concatenated: ConcatViews.ConcatView<T>)
    | Ordered(ordered: OrderedViews.OrderedView<T>)
    | Mapped(entries: map<K, E>)

  /** No item before range[i] has the key of range[i]. */
  ghost predicate FirstWithKey<T, K>(range: seq<T>, keySelector: T -> K, i: nat)
    requires i < |range|
  {
    forall j :: 0 <= j < i ==> keySelector(range[j]) != keySelector(range[i])
  }

  /**
   * `range | adaptor`: the adaptor's call operator applied to the range.
   * `bidirectional` says whether the range is a bidirectional range, which
   * selects the branch the Last family takes.
   */
  method Pipe<T(==), A, K, E>(range: seq<T>, adaptor: Adaptor<T, A, K, E>, bidirectional: bool)
    returns (out: Output<T, A, K, E>)
    requires (adaptor.Max? || adaptor.Min?) ==> range != []
    requires (adaptor.ElementAt? || adaptor.ElementAtOrDefault?) && range != [] ==>
               adaptor.position <= StdRanges.DifferenceMax
    ensures adaptor.Aggregate? ==> out == Element(Adaptors.FoldLeft(adaptor.func, adaptor.valueInit, range))
    ensures adaptor.AggregateSeed? ==> out == Accumulated(Adaptors.FoldLeft(adaptor.accumulate, adaptor.seed, range))
    ensures adaptor.All? ==> out.Flag? && (out.flag <==> forall i :: 0 <= i < |range| ==> adaptor.pred(range[i]))
    ensures adaptor.Any? ==> out.Flag? && (out.flag <==> exists i :: 0 <= i < |range| && adaptor.pred(range[i]))
    ensures adaptor.Contains? ==> out == Flag(adaptor.value in range)
    ensures adaptor.Count? ==> out == Number(|range|)
    ensures adaptor.ElementAt? ==> out == Found(Adaptors.ElementAt(range, adaptor.position))
    ensures adaptor.ElementAtOrDefault? ==> out == Optional(Adaptors.ElementAtOrDefault(range, adaptor.position))
    ensures adaptor.First? ==> out == Found(Adaptors.First(range))
    ensures adaptor.FirstOrDefault? ==> out == Optional(Adaptors.FirstOrDefault(range))
    ensures adaptor.FirstWhere? ==>
              out == Found(Adaptors.ElementOr(range, Adaptors.FindFirst(range, adaptor.pred), RuntimeError(Adaptors.ItemNotFound)))
    ensures adaptor.FirstOrDefaultWhere? ==>
              out == Optional(Adaptors.ElementOr(range, Adaptors.FindFirst(range, adaptor.pred), RuntimeError(Adaptors.ItemNotFound)).ToOption())
    ensures adaptor.Last? ==>
              out == Found(if range == [] then Err(RuntimeError(Adaptors.RangeEmpty)) else Ok(range[|range| - 1]))
    ensures adaptor.LastOrDefault? ==>
              out == Optional(if range == [] then None else Some(range[|range| - 1]))
    ensures adaptor.LastWhere? ==>
              out == Found(Adaptors.ElementOr(range, Adaptors.FindLast(range, adaptor.pred), RuntimeError(Adaptors.ItemNotFound)))
    ensures adaptor.LastOrDefaultWhere? ==>
              out == Optional(Adaptors.ElementOr(range, Adaptors.FindLast(range, adaptor.pred), RuntimeError(Adaptors.ItemNotFound)).ToOption())
    ensures adaptor.Max? ==> out == Element(Adaptors.Max(range, adaptor.projection))
    ensures adaptor.Min? ==> out == Element(Adaptors.Min(range, adaptor.projection))
    ensures adaptor.Append? ==>
              out.Appended? && fresh(out.appended) && out.appended.source == range && out.appended.value == adaptor.value
    ensures adaptor.Chunk? ==>
              out.Chunked? && (out.chunked.Ok? <==> adaptor.size > 0) &&
              (out.chunked.Err? ==> out.chunked.error == InvalidArgument(ChunkViews.ZeroSize)) &&
              (out.chunked.Ok? ==> fresh(out.chunked.value) && out.chunked.value.source == range &&
                                   out.chunked.value.size == adaptor.size)
    ensures adaptor.Concat? ==>
              out.Concatenated? && fresh(out.concatenated) &&
              out.concatenated.first == range && out.concatenated.second == adaptor.otherRange
    ensures adaptor.Order? ==>
              out.Ordered? && fresh(out.ordered) && out.ordered.Valid() && !out.ordered.sorted &&
              out.ordered.source == range && out.ordered.comparer == adaptor.comparer &&
              out.ordered.projection == adaptor.projection
    ensures adaptor.ToUnorderedMap? ==>
              && out.Mapped?
              && (forall i :: 0 <= i < |range| ==> adaptor.keySelector(range[i]) in out.entries)
              && (forall k :: k in out.entries ==> exists i :: 0 <= i < |range| && adaptor.keySelector(range[i]) == k)
              && (forall i | 0 <= i < |range| && FirstWithKey(range, adaptor.keySelector, i) ::
                    out.entries[adaptor.keySelector(range[i])] == adaptor.elementSelector(range[i]))
  {
    match adaptor
    case Aggregate(func, valueInit) =>
      var r := Adaptors.Aggregate(range, func, valueInit);
      out := Element(r);
    case AggregateSeed(accumulate, seed) =>
      var r := Adaptors.AggregateSeed(range, accumulate, seed);
      out := Accumulated(r);
    case All(pred) =>
      var r := Adaptors.All(range, pred);
      out := Flag(r);
    case Any(pred) =>
      var r := Adaptors.Any(range, pred);
      out := Flag(r);
    case Append(value) =>
      var v := Adaptors.Append(range, value);
      out := Appended(v);
    case Chunk(size) =>
      var r := Adaptors.Chunk(range, size);
      out := Chunked(r);
    case Concat(otherRange) =>
      var v := Adaptors.Concat(range, otherRange);
      out := Concatenated(v);
    case Contains(value) =>
      var r := Adaptors.Contains(range, value);
      out := Flag(r);
    case Count =>
      out := Number(Adaptors.Count(range));
    case ElementAt(position) =>
      out := Found(Adaptors.ElementAt(range, position));
    case ElementAtOrDefault(position) =>
      out := Optional(Adaptors.ElementAtOrDefault(range, position));
    case First =>
      out := Found(Adaptors.First(range));
    case FirstWhere(pred) =>
      var r := Adaptors.FirstWhere(range, pred);
      out := Found(r);
    case FirstOrDefault =>
      out := Optional(Adaptors.FirstOrDefault(range));
    case FirstOrDefaultWhere(pred) =>
      var r := Adaptors.FirstOrDefaultWhere(range, pred);
      out := Optional(r);
    case Last =>
      var r := Adaptors.Last(range, bidirectional);
      out := Found(r);
    case LastWhere(pred) =>
      var r := Adaptors.LastWhere(range, pred, bidirectional);
      out := Found(r);
    case LastOrDefault =>
      var r := Adaptors.LastOrDefault(range, bidirectional);
      out := Optional(r);
    case LastOrDefaultWhere(pred) =>
      var r := Adaptors.LastOrDefaultWhere(range, pred, bidirectional);
      out := Optional(r);
    case Max(projection) =>
      out := Element(Adaptors.Max(range, projection));
    case Min(projection) =>
      out := Element(Adaptors.Min(range, projection));
    case Order(comparer, projection) =>
      var v := Adaptors.Order(range, comparer, projection);
      out := Ordered(v);
    case ToUnorderedMap(keySelector, elementSelector) =>
      var m := Adaptors.ToUnorderedMap(range, keySelector, elementSelector);
      out := Mapped(m);
  }

  /**
   * range | Concat(otherRange) | Count(): counting what the concatenation
   * yields gives the sum of both sizes, which is what size() reports.
   */
  method ConcatThenCount<T(==)>(range: seq<T>, otherRange: seq<T>) returns (n: nat, size: nat)
    ensures n == size == |range| + |otherRange|
  {
    var view := Pipe<T, int, int, int>(range, Concat(otherRange), false);
    var items, _ := ConcatViews.Collect(view.concatenated);
    var counted := Pipe<T, int, int, int>(items, Count, false);
    n, size := counted.number, view.concatenated.Size();
  }

  /**
   * range | Chunk(size) | Count(): throws for size 0; otherwise counting the
   * chunks gives the ceiling of |range| / size, which is what size() reports.
   */
  method ChunkThenCount<T(==)>(range: seq<T>, size: nat) returns (n: Result<nat>, reported: Option<nat>)
    requires range != [] ==> size <= StdRanges.DifferenceMax
    ensures size == 0 ==> n == Err(InvalidArgument(ChunkViews.ZeroSize)) && reported == None
    ensures size > 0 ==> n == Ok((|range| + size - 1) / size) && reported == Some(n.value)
  {
    var view := Pipe<T, int, int, int>(range, Chunk(size), false);
    if view.chunked.Err? {
      return Err(view.chunked.error), None;
    }
    var chunks := ChunkViews.Collect(view.chunked.value);
    var counted := Pipe<seq<T>, int, int, int>(chunks, Count, false);
    ChunkViews.ChunksCount(range, size);
    n, reported := Ok(counted.number), Some(view.chunked.value.Size());
  }

  /**
   * range | OrderBy(projection) | First(): throws on an empty range;
   * otherwise an element of the range whose key is as small as Min's.
   */
  method OrderThenFirst<T(==)>(range: seq<T>, projection: T -> int) returns (r: Result<T>)
    ensures range == [] ==> r == Err(RuntimeError(Adaptors.RangeEmpty))
    ensures range != [] ==>
              r.Ok? && r.value in range && projection(r.value) == projection(Adaptors.Min(range, projection))
  {
    var view := Pipe<T, int, int, int>(range, Order(OrderedViews.Less, projection), false);
    var v := view.ordered;
    var b := v.Begin();
    var e := v.End();
    var items := v.buffer[b..e];
    assert items == v.buffer;
    var first := Pipe<T, int, int, int>(items, First, false);
    r := first.found;
    if range != [] {
      assert multiset(items) == multiset(range);
      assert items[0] in multiset(range);
      forall j | 0 <= j < |range|
        ensures projection(items[0]) <= projection(range[j])
      {
        assert range[j] in multiset(items);
        var k :| 0 <= k < |items| && items[k] == range[j];
        if k > 0 {
          OrderedViews.OrderedAllPairs(OrderedViews.Less, projection, items, 0, k);
        }
      }
    }
  }
}
