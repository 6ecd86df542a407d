/**
 * The range adaptors: the composition rule `range | adaptor`, the adaptors
 * that build the lazy views, and the eager terminal operators over a finite
 * range (modelled as a sequence).
 */
module Adaptors {
  import opened Wrappers
  import StdRanges
  import AppendViews
  import ChunkViews
  import ConcatViews
  import OrderedViews

  /** The messages of the exceptions the terminal operators throw. */
  const RangeEmpty := "Range is empty"
  const ItemNotFound := "Item not found"
  const PositionOutOfRange := "Position is out of range"

  // ---------------------------------------------------------------------
  // View-building adaptors

  /** Append(value): wraps the range in an AppendView. */
  method Append<T>(range: seq<T>, value: T) returns (v: AppendViews.AppendView<T>)
    ensures fresh(v) && v.source == range && v.value == value
  {
    v := new AppendViews.AppendView(range, value);
  }

  /** Chunk(size): wraps the range in a ChunkView, whose constructor rejects size 0. */
  method Chunk<T>(range: seq<T>, size: nat) returns (r: Result<ChunkViews.ChunkView<T>>)
    ensures size == 0 ==> r == Err(InvalidArgument(ChunkViews.ZeroSize))
    ensures size > 0 ==> r.Ok? && fresh(r.value) && r.value.source == range && r.value.size == size
  {
    r := ChunkViews.ChunkView.Create(range, size);
  }

  /** Concat(otherRange): the range followed by the other range. */
  method Concat<T>(range: seq<T>, otherRange: seq<T>) returns (v: ConcatViews.ConcatView<T>)
    ensures fresh(v) && v.first == range && v.second == otherRange
  {
    v := new ConcatViews.ConcatView(range, otherRange);
  }

  /** Order / OrderBy / OrderByDescending: an OrderedView that has not sorted anything yet. */
  method Order<T>(range: seq<T>, comparer: OrderedViews.Comparer, projection: T -> int)
    returns (v: OrderedViews.OrderedView<T>)
    ensures fresh(v) && v.Valid() && !v.sorted
    ensures v.source == range && v.comparer == comparer && v.projection == projection
  {
    v := new OrderedViews.OrderedView(range, comparer, projection);
  }

  // ---------------------------------------------------------------------
  // Aggregate

  /** The left fold of f over s from seed: f(...f(f(seed, s[0]), s[1])..., s[|s|-1]). */
  function FoldLeft<A, T>(f: (A, T) -> A, seed: A, s: seq<T>): A
    decreases |s|
  {
    if s == [] then seed else f(FoldLeft(f, seed, s[..|s| - 1]), s[|s| - 1])
  }

  /** Folding from the front: the first element is combined with the seed first. */
  lemma {:induction false} FoldLeftCons<A, T>(f: (A, T) -> A, seed: A, x: T, s: seq<T>)
    ensures FoldLeft(f, seed, [x] + s) == FoldLeft(f, f(seed, x), s)
    decreases |s|
  {
    if s != [] {
      var s' := s[..|s| - 1];
      FoldLeftCons(f, seed, x, s');
      assert ([x] + s)[..|s|] == [x] + s';
    }
  }

  /** Folding a concatenation folds the second part from the first part's result. */
  lemma {:induction false} FoldLeftAppend<A, T>(f: (A, T) -> A, seed: A, s: seq<T>, t: seq<T>)
    ensures FoldLeft(f, seed, s + t) == FoldLeft(f, FoldLeft(f, seed, s), t)
    decreases |t|
  {
    if t != [] {
      var t' := t[..|t| - 1];
      FoldLeftAppend(f, seed, s, t');
      assert (s + t)[..|s + t| - 1] == s + t';
    } else {
      assert s + t == s;
    }
  }

  /** Aggregate(func, seed): the accumulator starts at seed and absorbs the elements in order. */
  method AggregateSeed<A, T>(range: seq<T>, f: (A, T) -> A, seed: A) returns (r: A)
    ensures r == FoldLeft(f, seed, range)
  {
    r := seed;
    for i := 0 to |range|
      invariant r == FoldLeft(f, seed, range[..i])
    {
      assert range[..i + 1][..i] == range[..i];
      r := f(r, range[i]);
    }
    assert range[..|range|] == range;
  }

  /**
   * Aggregate(func): the same fold with the element type as accumulator,
   * starting from `valueInit`, the value-initialised element T{}.
   */
  method Aggregate<T>(range: seq<T>, f: (T, T) -> T, valueInit: T) returns (r: T)
    ensures r == FoldLeft(f, valueInit, range)
  {
    r := AggregateSeed(range, f, valueInit);
  }

  // ---------------------------------------------------------------------
  // Quantifiers and counting

  /** All(pred): every element satisfies pred (so true on an empty range). */
  method All<T>(range: seq<T>, pred: T -> bool) returns (r: bool)
    ensures r <==> forall i :: 0 <= i < |range| ==> pred(range[i])
  {
    for i := 0 to |range|
      invariant forall j :: 0 <= j < i ==> pred(range[j])
    {
      if !pred(range[i]) {
        return false;
      }
    }
    return true;
  }

  /** Any(pred): some element satisfies pred (so false on an empty range). */
  method Any<T>(range: seq<T>, pred: T -> bool) returns (r: bool)
    ensures r <==> exists i :: 0 <= i < |range| && pred(range[i])
  {
    for i := 0 to |range|
      invariant forall j :: 0 <= j < i ==> !pred(range[j])
    {
      if pred(range[i]) {
        return true;
      }
    }
    return false;
  }

  /** Contains(value): some element equals value. */
  method Contains<T(==)>(range: seq<T>, value: T) returns (r: bool)
    ensures r <==> value in range
  {
    for i := 0 to |range|
      invariant value !in range[..i]
    {
      if range[i] == value {
        return true;
      }
    }
    assert range[..|range|] == range;
    return false;
  }

  /** Count(): the distance from begin to end, one per increment; it is the number of elements. */
  function Count<T>(range: seq<T>): (n: nat)
    ensures n == |range|
    decreases |range|
  {
    if range == [] then 0 else 1 + Count(range[1..])
  }

  // ---------------------------------------------------------------------
  // Positional access

  /**
   * ElementAt(position): advance at most position steps; throws out_of_range
   * if that reaches the end. A position above DifferenceMax reaches advance
   * as a negative count, undefined behaviour unless the range is empty.
   */
  function ElementAt<T>(range: seq<T>, position: nat): (r: Result<T>)
    requires range != [] ==> position <= StdRanges.DifferenceMax
    ensures r.Ok? <==> position < |range|
    ensures r.Ok? ==> r.value == range[position]
    ensures r.Err? ==> r.error == OutOfRange(PositionOutOfRange)
  {
    var it := StdRanges.AdvanceBounded(0, position, |range|);
    if it == |range| then Err(OutOfRange(PositionOutOfRange)) else Ok(range[it])
  }

  /** ElementAtOrDefault(position): the same element as an optional, empty exactly where ElementAt throws. */
  function ElementAtOrDefault<T>(range: seq<T>, position: nat): (r: Option<T>)
    requires range != [] ==> position <= StdRanges.DifferenceMax
    ensures r == ElementAt(range, position).ToOption()
    ensures r == if position < |range| then Some(range[position]) else None
  {
    var it := StdRanges.AdvanceBounded(0, position, |range|);
    if it == |range| then None else Some(range[it])
  }

  // ---------------------------------------------------------------------
  // First and Last

  /** The index of the first element satisfying pred, if any. */
  function FindFirst<T>(s: seq<T>, pred: T -> bool): (r: Option<nat>)
    ensures r.Some? ==> r.value < |s| && pred(s[r.value])
    ensures r.Some? ==> forall j :: 0 <= j < r.value ==> !pred(s[j])
    ensures r.None? ==> forall j :: 0 <= j < |s| ==> !pred(s[j])
    decreases |s|
  {
    if s == [] then None
    else if pred(s[0]) then Some(0)
    else match FindFirst(s[1..], pred)
      case None => None
      case Some(k) => Some(k + 1)
  }

  /** The index of the last element satisfying pred, if any. */
  function FindLast<T>(s: seq<T>, pred: T -> bool): (r: Option<nat>)
    ensures r.Some? ==> r.value < |s| && pred(s[r.value])
    ensures r.Some? ==> forall j :: r.value < j < |s| ==> !pred(s[j])
    ensures r.None? ==> forall j :: 0 <= j < |s| ==> !pred(s[j])
    decreases |s|
  {
    if s == [] then None
    else if pred(s[|s| - 1]) then Some(|s| - 1)
    else FindLast(s[..|s| - 1], pred)
  }

  /** The element found at an optional index, or the given exception. */
  function ElementOr<T>(s: seq<T>, index: Option<nat>, error: Exception): Result<T>
    requires index.Some? ==> index.value < |s|
  {
    match index
    case Some(k) => Ok(s[k])
    case None => Err(error)
  }

  /** First(): the first element; throws "Range is empty" on an empty range. */
  function First<T>(range: seq<T>): (r: Result<T>)
    ensures r.Ok? <==> range != []
    ensures r.Ok? ==> r.value == range[0]
    ensures r.Err? ==> r.error == RuntimeError(RangeEmpty)
  {
    if |range| == 0 then Err(RuntimeError(RangeEmpty)) else Ok(range[0])
  }

  /** FirstOrDefault(): empty exactly where First throws, First's element otherwise. */
  function FirstOrDefault<T>(range: seq<T>): (r: Option<T>)
    ensures r == First(range).ToOption()
  {
    if |range| == 0 then None else Some(range[0])
  }

  /** First(pred): the first element satisfying pred; throws "Item not found" when none does. */
  method FirstWhere<T>(range: seq<T>, pred: T -> bool) returns (r: Result<T>)
    ensures r == ElementOr(range, FindFirst(range, pred), RuntimeError(ItemNotFound))
  {
    for i := 0 to |range|
      invariant forall j :: 0 <= j < i ==> !pred(range[j])
    {
      if pred(range[i]) {
        FindFirstUnique(range, pred, i);
        return Ok(range[i]);
      }
    }
    return Err(RuntimeError(ItemNotFound));
  }

  /** FirstOrDefault(pred): the same element as an optional, empty exactly where First(pred) throws. */
  method FirstOrDefaultWhere<T>(range: seq<T>, pred: T -> bool) returns (r: Option<T>)
    ensures r == ElementOr(range, FindFirst(range, pred), RuntimeError(ItemNotFound)).ToOption()
  {
    for i := 0 to |range|
      invariant forall j :: 0 <= j < i ==> !pred(range[j])
    {
      if pred(range[i]) {
        FindFirstUnique(range, pred, i);
        return Some(range[i]);
      }
    }
    return None;
  }

  /** A matching index with no match before it is the one FindFirst reports. */
  lemma FindFirstUnique<T>(s: seq<T>, pred: T -> bool, i: nat)
    requires i < |s| && pred(s[i])
    requires forall j :: 0 <= j < i ==> !pred(s[j])
    ensures FindFirst(s, pred) == Some(i)
  {
  }

  /** A matching index with no match after it is the one FindLast reports. */
  lemma FindLastUnique<T>(s: seq<T>, pred: T -> bool, i: nat)
    requires i < |s| && pred(s[i])
    requires forall j :: i < j < |s| ==> !pred(s[j])
    ensures FindLast(s, pred) == Some(i)
  {
  }

  /**
   * Last(): the last element; throws "Range is empty" on an empty range.
   * A bidirectional range steps back from its end; any other range is
   * scanned forward, remembering the most recent position.
   */
  method Last<T>(range: seq<T>, bidirectional: bool) returns (r: Result<T>)
    ensures r.Ok? <==> range != []
    ensures r.Ok? ==> r.value == range[|range| - 1]
    ensures r.Err? ==> r.error == RuntimeError(RangeEmpty)
  {
    if |range| == 0 {
      return Err(RuntimeError(RangeEmpty));
    }
    if bidirectional {
      return Ok(range[|range| - 1]);
    } else {
      var it := 0;
      var last := it;
      while it != |range|
        invariant 0 <= it <= |range|
        invariant last < |range| && (it > 0 ==> last == it - 1)
      {
        last := it;
        it := it + 1;
      }
      return Ok(range[last]);
    }
  }

  /** LastOrDefault(): empty on an empty range, the last element otherwise, on both paths. */
  method LastOrDefault<T>(range: seq<T>, bidirectional: bool) returns (r: Option<T>)
    ensures r == if range == [] then None else Some(range[|range| - 1])
  {
    if |range| == 0 {
      return None;
    }
    if bidirectional {
      return Some(range[|range| - 1]);
    } else {
      var it := 0;
      var last := it;
      while it != |range|
        invariant 0 <= it <= |range|
        invariant last < |range| && (it > 0 ==> last == it - 1)
      {
        last := it;
        it := it + 1;
      }
      return Some(range[last]);
    }
  }

  /**
   * Last(pred): the last element satisfying pred; throws "Item not found"
   * when none does. A bidirectional range is searched backwards from its
   * end; any other range is scanned forward, keeping the latest match.
   */
  method LastWhere<T>(range: seq<T>, pred: T -> bool, bidirectional: bool) returns (r: Result<T>)
    ensures r == ElementOr(range, FindLast(range, pred), RuntimeError(ItemNotFound))
  {
    if bidirectional {
      var i := |range|;
      while i != 0
        invariant 0 <= i <= |range|
        invariant forall j :: i <= j < |range| ==> !pred(range[j])
      {
        i := i - 1;
        if pred(range[i]) {
          FindLastUnique(range, pred, i);
          return Ok(range[i]);
        }
      }
    } else {
      var found: Option<T> := None;
      ghost var at: nat := 0;
      for i := 0 to |range|
        invariant found.None? ==> forall j :: 0 <= j < i ==> !pred(range[j])
        invariant found.Some? ==> at < i && pred(range[at]) && found.value == range[at]
        invariant found.Some? ==> forall j :: at < j < i ==> !pred(range[j])
      {
        if pred(range[i]) {
          found := Some(range[i]);
          at := i;
        }
      }
      if found.Some? {
        FindLastUnique(range, pred, at);
        return Ok(found.value);
      }
    }
    return Err(RuntimeError(ItemNotFound));
  }

  /** LastOrDefault(pred): the same element as an optional, empty exactly where Last(pred) throws. */
  method LastOrDefaultWhere<T>(range: seq<T>, pred: T -> bool, bidirectional: bool) returns (r: Option<T>)
    ensures r == ElementOr(range, FindLast(range, pred), RuntimeError(ItemNotFound)).ToOption()
  {
    if bidirectional {
      var i := |range|;
      while i != 0
        invariant 0 <= i <= |range|
        invariant forall j :: i <= j < |range| ==> !pred(range[j])
      {
        i := i - 1;
        if pred(range[i]) {
          FindLastUnique(range, pred, i);
          return Some(range[i]);
        }
      }
      return None;
    } else {
      var found: Option<T> := None;
      ghost var at: nat := 0;
      for i := 0 to |range|
        invariant found.None? ==> forall j :: 0 <= j < i ==> !pred(range[j])
        invariant found.Some? ==> at < i && pred(range[at]) && found.value == range[at]
        invariant found.Some? ==> forall j :: at < j < i ==> !pred(range[j])
      {
        if pred(range[i]) {
          found := Some(range[i]);
          at := i;
        }
      }
      if found.Some? {
        FindLastUnique(range, pred, at);
      }
      return found;
    }
  }

  // ---------------------------------------------------------------------
  // Min and Max

  /** The index of the leftmost element with the smallest projected key. */
  function MinIndex<T>(s: seq<T>, key: T -> int): (k: nat)
    requires s != []
    ensures k < |s|
    ensures forall j :: 0 <= j < |s| ==> key(s[k]) <= key(s[j])
    ensures forall j :: 0 <= j < k ==> key(s[j]) > key(s[k])
    decreases |s|
  {
    if |s| == 1 then 0
    else
      var k := MinIndex(s[..|s| - 1], key);
      if key(s[|s| - 1]) < key(s[k]) then |s| - 1 else k
  }

  /** The index of the leftmost element with the largest projected key. */
  function MaxIndex<T>(s: seq<T>, key: T -> int): (k: nat)
    requires s != []
    ensures k < |s|
    ensures forall j :: 0 <= j < |s| ==> key(s[j]) <= key(s[k])
    ensures forall j :: 0 <= j < k ==> key(s[j]) < key(s[k])
    decreases |s|
  {
    if |s| == 1 then 0
    else
      var k := MaxIndex(s[..|s| - 1], key);
      if key(s[k]) < key(s[|s| - 1]) then |s| - 1 else k
  }

  /** Min(projection): an element whose key is least; on ties, the leftmost such element. */
  function Min<T>(range: seq<T>, projection: T -> int): (r: T)
    requires range != []
    ensures forall j :: 0 <= j < |range| ==> projection(r) <= projection(range[j])
    ensures exists k :: 0 <= k < |range| && range[k] == r &&
              forall j :: 0 <= j < k ==> projection(range[j]) > projection(r)
  {
    range[MinIndex(range, projection)]
  }

  /** Max(projection): an element whose key is greatest; on ties, the leftmost such element. */
  function Max<T>(range: seq<T>, projection: T -> int): (r: T)
    requires range != []
    ensures forall j :: 0 <= j < |range| ==> projection(range[j]) <= projection(r)
    ensures exists k :: 0 <= k < |range| && range[k] == r &&
              forall j :: 0 <= j < k ==> projection(range[j]) < projection(r)
  {
    range[MaxIndex(range, projection)]
  }

  // ---------------------------------------------------------------------
  // Conversion

  /**
   * ToUnorderedMap(keySelector, elementSelector): the keys are exactly the
   * projected keys, and each maps to the element of the first item with that
   * key, since emplace never overwrites.
   */
  method ToUnorderedMap<T, K, E>(range: seq<T>, keySelector: T -> K, elementSelector: T -> E)
    returns (m: map<K, E>)
    ensures forall i :: 0 <= i < |range| ==> keySelector(range[i]) in m
    ensures forall k :: k in m ==> exists i :: 0 <= i < |range| && keySelector(range[i]) == k
    ensures forall i :: 0 <= i < |range| && (forall j :: 0 <= j < i ==> keySelector(range[j]) != keySelector(range[i])) ==>
              m[keySelector(range[i])] == elementSelector(range[i])
  {
    m := map[];
    for n := 0 to |range|
      invariant forall i :: 0 <= i < n ==> keySelector(range[i]) in m
      invariant forall k :: k in m ==> exists i :: 0 <= i < n && keySelector(range[i]) == k
      invariant forall i :: 0 <= i < n && (forall j :: 0 <= j < i ==> keySelector(range[j]) != keySelector(range[i])) ==>
                  m[keySelector(range[i])] == elementSelector(range[i])
    {
      var k := keySelector(range[n]);
      if k !in m {
        m := m[k := elementSelector(range[n])];
      }
    }
  }
}
