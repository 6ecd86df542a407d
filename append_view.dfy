/**
 * AppendView: a lazy view that yields every element of its source and then
 * one stored value. Its cursor is a three-phase state machine.
 */
module AppendViews {
  import opened Wrappers

  /** The phase of an append cursor. */
  datatype AppendPosition = InRange | InAppend | InEnd

  /** The error messages of the cursor. */
  const DerefAtEnd := "Cannot get value at end"
  const AdvanceAtEnd := "Cannot iterate out of end"

  class AppendView<T> {
    /** The wrapped source range. */
    const source: seq<T>
    /** The value yielded after the source. */
    const value: T

    constructor (range: seq<T>, value: T)
      ensures source == range && this.value == value
    {
      source := range;
      this.value := value;
    }

    /** What an iteration from Begin to End yields: the source, then the stored value. */
    function Elements(): seq<T> {
      source + [value]
    }

    /** begin(): InRange at the source start, or straight InAppend when the source is empty. */
    method Begin() returns (it: AppendIterator<T>)
      ensures fresh(it) && it.parent == this && it.Valid()
      ensures it.sourceIt == 0
      ensures it.position == (if source == [] then InAppend else InRange)
      ensures it.Offset() == 0
    {
      if 0 != |source| {
        it := new AppendIterator(this, 0, InRange);
      } else {
        it := new AppendIterator(this, 0, InAppend);
      }
    }

    /** end(): the source's end, in phase InEnd. */
    method End() returns (it: AppendIterator<T>)
      ensures fresh(it) && it.parent == this && it.Valid()
      ensures it.sourceIt == |source| && it.position == InEnd
      ensures it.Offset() == |Elements()|
    {
      it := new AppendIterator(this, |source|, InEnd);
    }
  }

  class AppendIterator<T> {
    /** The view the cursor belongs to (a non-owning back-reference). */
    const parent: AppendView<T>
    /** The cursor into the source. */
    var sourceIt: nat
    var position: AppendPosition

    constructor (parent: AppendView<T>, sourceIt: nat, position: AppendPosition)
      ensures this.parent == parent && this.sourceIt == sourceIt && this.position == position
    {
      this.parent := parent;
      this.sourceIt := sourceIt;
      this.position := position;
    }

    /** The phase agrees with the source cursor: InRange strictly inside the source, otherwise at its end. */
    ghost predicate Valid()
      reads this
    {
      match position
      case InRange => sourceIt < |parent.source|
      case InAppend => sourceIt == |parent.source|
      case InEnd => sourceIt == |parent.source|
    }

    /** The index into parent.Elements() that the cursor denotes; |Elements()| is past the end. */
    ghost function Offset(): nat
      reads this
    {
      match position
      case InRange => sourceIt
      case InAppend => |parent.source|
      case InEnd => |parent.source| + 1
    }

    /** operator*: the denoted element, or out_of_range in phase InEnd. */
    function Deref(): (r: Result<T>)
      reads this
      requires Valid()
      ensures r.Ok? <==> Offset() < |parent.Elements()|
      ensures r.Ok? ==> r.value == parent.Elements()[Offset()]
      ensures r.Err? ==> r.error == OutOfRange(DerefAtEnd)
    {
      match position
      case InRange => Ok(parent.source[sourceIt])
      case InAppend => Ok(parent.value)
      case InEnd => Err(OutOfRange(DerefAtEnd))
    }

    /** operator++: one element further; out_of_range in phase InEnd. */
    method Advance() returns (r: Outcome)
      requires Valid()
      modifies this
      ensures Valid()
      ensures old(Offset()) < |parent.Elements()| ==> r == Pass && Offset() == old(Offset()) + 1
      ensures old(position) == InRange ==>
                position == (if sourceIt == |parent.source| then InAppend else InRange)
      ensures old(Offset()) == |parent.Elements()| ==>
                r == Fail(OutOfRange(AdvanceAtEnd)) && sourceIt == old(sourceIt) && position == old(position)
    {
      match position
      case InRange =>
        sourceIt := sourceIt + 1;
        if sourceIt == |parent.source| {
          position := InAppend;
        }
        r := Pass;
      case InAppend =>
        position := InEnd;
        r := Pass;
      case InEnd =>
        r := Fail(OutOfRange(AdvanceAtEnd));
    }

    /** operator==: same source cursor and same phase, which is the same position in the view. */
    function Equals(other: AppendIterator<T>): (r: bool)
      reads this, other
      requires Valid() && other.Valid() && parent == other.parent
      ensures r <==> Offset() == other.Offset()
    {
      sourceIt == other.sourceIt && position == other.position
    }
  }

  /**
   * A range-for over the view: from Begin, dereference and advance until the
   * cursor equals End. It yields the source and then the stored value, in
   * exactly |source| + 1 steps.
   */
  method Collect<T>(view: AppendView<T>) returns (items: seq<T>, steps: nat)
    ensures items == view.source + [view.value]
    ensures steps == |view.source| + 1
  {
    var it := view.Begin();
    var stop := view.End();
    items, steps := [], 0;
    while !it.Equals(stop)
      invariant it.parent == view && it.Valid()
      invariant stop.parent == view && stop.Valid() && stop.Offset() == |view.Elements()|
      invariant it != stop
      invariant steps == it.Offset() <= |view.Elements()|
      invariant items == view.Elements()[..steps]
      decreases |view.Elements()| - steps
    {
      var x := it.Deref();
      items := items + [x.value];
      var _ := it.Advance();
      steps := steps + 1;
    }
  }
}
