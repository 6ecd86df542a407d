/**
 * OrderedView: a deferred sort. Nothing happens at construction; the first
 * Begin or End drains the source into an owned buffer and sorts it by a
 * comparer applied to projected keys, once for the lifetime of the view.
 */
module OrderedViews {

  /** The comparers the ordering adaptors use: std::less (ascending) and std::greater (descending). */
  datatype Comparer = Less | Greater {
    predicate Compare(a: int, b: int) {
      match this
      case Less => a < b
      case Greater => a > b
    }
  }

  /** No adjacent pair (a, b) of s has comp(key(b), key(a)): s is sorted for the comparer. */
  predicate OrderedBy<T>(comp: Comparer, key: T -> int, s: seq<T>) {
    forall i :: 0 < i < |s| ==> !comp.Compare(key(s[i]), key(s[i - 1]))
  }

  /** Insert x into s before the first element that x does not come after. */
  function Insert<T>(comp: Comparer, key: T -> int, x: T, s: seq<T>): (r: seq<T>)
    ensures multiset(r) == multiset(s) + multiset{x}
    ensures |r| == |s| + 1
    ensures r[0] == x || (s != [] && r[0] == s[0])
    ensures OrderedBy(comp, key, s) ==> OrderedBy(comp, key, r)
  {
    if s == [] then [x]
    else if comp.Compare(key(s[0]), key(x)) then
      assert s == [s[0]] + s[1..];
      [s[0]] + Insert(comp, key, x, s[1..])
    else [x] + s
  }

  /** A reference sort (insertion sort) standing in for std::ranges::sort. */
  function Sort<T>(comp: Comparer, key: T -> int, s: seq<T>): (r: seq<T>)
    ensures multiset(r) == multiset(s)
    ensures OrderedBy(comp, key, r)
  {
    if s == [] then []
    else
      assert s == [s[0]] + s[1..];
      Insert(comp, key, s[0], Sort(comp, key, s[1..]))
  }

  /** Adjacent order extends to every pair: no later element's key comes before an earlier one's. */
  lemma {:induction false} OrderedAllPairs<T>(comp: Comparer, key: T -> int, s: seq<T>, i: nat, j: nat)
    requires OrderedBy(comp, key, s)
    requires i < j < |s|
    ensures !comp.Compare(key(s[j]), key(s[i]))
    decreases j - i
  {
    if i + 1 < j {
      OrderedAllPairs(comp, key, s, i + 1, j);
    }
  }

  /** Both ordered permutations start with the same element when keys tell elements apart. */
  lemma OrderedHeadsAgree<T>(comp: Comparer, key: T -> int, a: seq<T>, b: seq<T>)
    requires OrderedBy(comp, key, a) && OrderedBy(comp, key, b)
    requires multiset(a) == multiset(b) && a != [] && b != []
    requires forall x, y :: x in a && y in a && key(x) == key(y) ==> x == y
    ensures a[0] == b[0]
  {
    assert a[0] in multiset(b) && b[0] in multiset(a);
    var j :| 0 <= j < |b| && b[j] == a[0];
    var i :| 0 <= i < |a| && a[i] == b[0];
    if j > 0 {
      OrderedAllPairs(comp, key, b, 0, j);
    }
    if i > 0 {
      OrderedAllPairs(comp, key, a, 0, i);
    }
    assert key(a[0]) == key(b[0]);
  }

  /** Removing the same first element from two permutations leaves two permutations. */
  lemma TailsPermute<T>(a: seq<T>, b: seq<T>)
    requires multiset(a) == multiset(b) && a != [] && b != [] && a[0] == b[0]
    ensures multiset(a[1..]) == multiset(b[1..])
  {
    assert a == [a[0]] + a[1..] && b == [b[0]] + b[1..];
    assert multiset(a[1..]) == multiset(a) - multiset{a[0]};
    assert multiset(b[1..]) == multiset(b) - multiset{b[0]};
  }

  /**
   * When the keys tell the elements apart, there is only one ordered
   * permutation: the order of a built buffer is then fully determined.
   */
  lemma {:induction false} OrderedPermutationUnique<T>(comp: Comparer, key: T -> int, a: seq<T>, b: seq<T>)
    requires OrderedBy(comp, key, a) && OrderedBy(comp, key, b)
    requires multiset(a) == multiset(b)
    requires forall x, y :: x in a && y in a && key(x) == key(y) ==> x == y
    ensures a == b
    decreases |a|
  {
    assert |a| == |multiset(a)| == |multiset(b)| == |b|;
    if a != [] {
      OrderedHeadsAgree(comp, key, a, b);
      TailsPermute(a, b);
      var a', b' := a[1..], b[1..];
      assert OrderedBy(comp, key, a') && OrderedBy(comp, key, b') by {
        forall i | 0 < i < |a'| ensures !comp.Compare(key(a'[i]), key(a'[i - 1])) {
          assert a'[i] == a[i + 1] && a'[i - 1] == a[i];
        }
        forall i | 0 < i < |b'| ensures !comp.Compare(key(b'[i]), key(b'[i - 1])) {
          assert b'[i] == b[i + 1] && b'[i - 1] == b[i];
        }
      }
      OrderedPermutationUnique(comp, key, a', b');
      assert a == [a[0]] + a' && b == [b[0]] + b';
    }
  }

  class OrderedView<T> {
    const source: seq<T>
    const comparer: Comparer
    const projection: T -> int
    /** Whether the buffer has been built (a mutable member in the source). */
    var sorted: bool
    /** The owned, sorted copy of the source. */
    var buffer: seq<T>
    /** How many times the source has been drained. */
    ghost var drains: nat

    /** Stores its arguments and does nothing else. */
    constructor (view: seq<T>, comparer: Comparer, projection: T -> int)
      ensures source == view && this.comparer == comparer && this.projection == projection
      ensures !sorted && buffer == [] && drains == 0
      ensures Valid()
    {
      source := view;
      this.comparer := comparer;
      this.projection := projection;
      sorted := false;
      buffer := [];
      drains := 0;
    }

    /**
     * The source is drained once when the buffer is built and never before;
     * a built buffer is a permutation of the source, ordered by the comparer
     * on projected keys.
     */
    ghost predicate Valid()
      reads this
    {
      && drains == (if sorted then 1 else 0)
      && (!sorted ==> buffer == [])
      && (sorted ==> multiset(buffer) == multiset(source) && OrderedBy(comparer, projection, buffer))
    }

    /** Build the buffer on the first call; every later call changes nothing. */
    method EnsureSorted()
      requires Valid()
      modifies this
      ensures Valid() && sorted
      ensures old(sorted) ==> buffer == old(buffer) && drains == old(drains)
    {
      if !sorted {
        sorted := true;
        buffer := source;
        drains := drains + 1;
        buffer := Sort(comparer, projection, buffer);
      }
    }

    /** begin(): sort if not yet done, then the start of the buffer. */
    method Begin() returns (it: nat)
      requires Valid()
      modifies this
      ensures Valid() && sorted && it == 0
      ensures old(sorted) ==> buffer == old(buffer) && drains == old(drains)
    {
      EnsureSorted();
      it := 0;
    }

    /** end(): sort if not yet done, then the end of the buffer. */
    method End() returns (it: nat)
      requires Valid()
      modifies this
      ensures Valid() && sorted && it == |buffer| == |source|
      ensures old(sorted) ==> buffer == old(buffer) && drains == old(drains)
    {
      EnsureSorted();
      it := |buffer|;
      assert |buffer| == |multiset(buffer)| == |multiset(source)| == |source|;
    }
  }
}
