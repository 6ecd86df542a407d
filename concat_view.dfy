/**
 * ConcatView: a lazy view that yields every element of a first range and
 * then every element of a second range of the same element type.
 */
module ConcatViews {

  class ConcatView<T> {
    const first: seq<T>
    const second: seq<T>

    constructor (range: seq<T>, otherRange: seq<T>)
      ensures first == range && second == otherRange
    {
      first := range;
      second := otherRange;
    }

    /** What an iteration from Begin to End yields. */
    function Elements(): seq<T> {
      first + second
    }

    /** begin(): the start of the first range, or of the second when the first is empty. */
    method Begin() returns (it: ConcatIterator<T>)
      ensures fresh(it) && it.parent == this && it.Valid()
      ensures it.firstIt == 0 && it.secondIt == 0 && it.inSecond == (first == [])
      ensures it.Offset() == 0
    {
      it := new ConcatIterator(this, false);
    }

    /** end(): the end of the second range. */
    method End() returns (it: ConcatIterator<T>)
      ensures fresh(it) && it.parent == this && it.Valid()
      ensures it.inSecond && it.firstIt == |first| && it.secondIt == |second|
      ensures it.Offset() == |Elements()|
    {
      it := new ConcatIterator(this, true);
    }

    /** size(): the sum of both sizes, which is the number of elements yielded. */
    function Size(): (r: nat)
      ensures r == |Elements()|
    {
      |first| + |second|
    }
  }

  class ConcatIterator<T> {
    /** The view the cursor belongs to (a non-owning back-reference). */
    const parent: ConcatView<T>
    /** Whether the cursor has crossed into the second range. */
    var inSecond: bool
    var firstIt: nat
    var secondIt: nat

    /** The begin cursor, or the end cursor when `isEnd` holds. */
    constructor (parent: ConcatView<T>, isEnd: bool)
      ensures this.parent == parent && Valid()
      ensures isEnd ==> inSecond && firstIt == |parent.first| && secondIt == |parent.second|
      ensures !isEnd ==> firstIt == 0 && secondIt == 0 && inSecond == (parent.first == [])
      ensures Offset() == if isEnd then |parent.Elements()| else 0
    {
      this.parent := parent;
      if isEnd {
        firstIt := |parent.first|;
        secondIt := |parent.second|;
        inSecond := true;
      } else {
        firstIt := 0;
        secondIt := 0;
        inSecond := 0 == |parent.first|;
      }
    }

    /**
     * In the first range the first cursor is strictly inside it; in the
     * second range the first cursor sits at the first range's end.
     */
    ghost predicate Valid()
      reads this
    {
      && firstIt <= |parent.first|
      && secondIt <= |parent.second|
      && (inSecond ==> firstIt == |parent.first|)
      && (!inSecond ==> firstIt < |parent.first|)
    }

    /** The index into parent.Elements() that the cursor denotes; the inactive cursor plays no part. */
    ghost function Offset(): nat
      reads this
    {
      if inSecond then |parent.first| + secondIt else firstIt
    }

    /** operator*: the element under the active cursor. */
    function Deref(): (r: T)
      reads this
      requires Valid() && Offset() < |parent.Elements()|
      ensures r == parent.Elements()[Offset()]
    {
      if inSecond then parent.second[secondIt] else parent.first[firstIt]
    }

    /**
     * operator++: advance the active cursor; stepping off the last element of
     * the first range sets the flag and restarts the second cursor at its begin.
     */
    method Advance()
      requires Valid() && Offset() < |parent.Elements()|
      modifies this
      ensures Valid()
      ensures Offset() == old(Offset()) + 1
      ensures !old(inSecond) && old(firstIt) + 1 == |parent.first| ==> inSecond && secondIt == 0
      ensures !old(inSecond) && old(firstIt) + 1 < |parent.first| ==> !inSecond && secondIt == old(secondIt)
    {
      if inSecond {
        secondIt := secondIt + 1;
      } else {
        firstIt := firstIt + 1;
        if firstIt == |parent.first| {
          inSecond := true;
          secondIt := 0;
        }
      }
    }

    /**
     * operator==: equal flags and equal active cursors, which is the same
     * position in the view.
     */
    function Equals(other: ConcatIterator<T>): (r: bool)
      reads this, other
      requires Valid() && other.Valid() && parent == other.parent
      ensures r <==> Offset() == other.Offset()
    {
      inSecond == other.inSecond &&
      (if inSecond then secondIt == other.secondIt else firstIt == other.firstIt)
    }
  }

  /**
   * A range-for over the view: it yields the first range and then the second,
   * in as many steps as Size() says.
   */
  method Collect<T>(view: ConcatView<T>) returns (items: seq<T>, steps: nat)
    ensures items == view.first + view.second
    ensures steps == view.Size()
  {
    var it := view.Begin();
    var stop := view.End();
    items, steps := [], 0;
    while !it.Equals(stop)
      invariant it.parent == view && it.Valid()
      invariant stop.parent == view && stop.Valid() && stop.Offset() == |view.Elements()|
      invariant it != stop
      invariant steps == it.Offset() <= |view.Elements()|
      invariant items == view.Elements()[..steps]
      decreases |view.Elements()| - steps
    {
      var x := it.Deref();
      items := items + [x];
      it.Advance();
      steps := steps + 1;
    }
  }
}
