/**
 * Worked pipelines: concrete sources driven through the views and the
 * terminal operators, with the results each view and operator gives on them.
 */
module Scenarios {
  import opened Wrappers
  import AppendViews
  import ChunkViews
  import ConcatViews
  import OrderedViews
  import Pipelines

  /** A record with a name and an age, as used by the search examples. */
  datatype Person = Person(name: string, age: int)

  /** The default projection of the ordering adaptors, std::identity, on int keys. */
  function Identity(x: int): int { x }

  /** [1, 2, 3, 4, 5] | Chunk(2) yields [1, 2], [3, 4], [5]; Chunk(0) throws invalid_argument. */
  method ChunkScenario() returns (chunks: seq<seq<int>>, zero: Result<ChunkViews.ChunkView<int>>)
    ensures chunks == [[1, 2], [3, 4], [5]]
    ensures zero == Err(InvalidArgument("Size cannot be 0"))
  {
    var r := Pipelines.Pipe<int, int, int, int>([1, 2, 3, 4, 5], Pipelines.Chunk(2), false);
    chunks := ChunkViews.Collect(r.chunked.value);
    assert [1, 2, 3, 4, 5][..2] == [1, 2] && [1, 2, 3, 4, 5][2..] == [3, 4, 5];
    assert [3, 4, 5][..2] == [3, 4] && [3, 4, 5][2..] == [5];
    assert ChunkViews.Chunks([5], 2) == [[5]];
    assert ChunkViews.Chunks([3, 4, 5], 2) == [[3, 4], [5]];
    assert ChunkViews.Chunks([1, 2, 3, 4, 5], 2) == [[1, 2], [3, 4], [5]];
    var z := Pipelines.Pipe<int, int, int, int>([1, 2, 3, 4, 5], Pipelines.Chunk(0), false);
    zero := z.chunked;
  }

  /** [1, 2, 3] | Concat([4, 5]) yields [1, 2, 3, 4, 5] and has size 5; piping that into Count() gives 5. */
  method ConcatScenario() returns (items: seq<int>, size: nat, count: nat)
    ensures items == [1, 2, 3, 4, 5] && size == 5 && count == 5
  {
    var v := Pipelines.Pipe<int, int, int, int>([1, 2, 3], Pipelines.Concat([4, 5]), false);
    items, size := ConcatViews.Collect(v.concatenated);
    var c := Pipelines.Pipe<int, int, int, int>(items, Pipelines.Count, false);
    count := c.number;
  }

  /** [1, 2] | Append(0) yields [1, 2, 0]; [] | Append(0) yields only [0]. */
  method AppendScenario() returns (items: seq<int>, single: seq<int>)
    ensures items == [1, 2, 0] && single == [0]
  {
    var v := Pipelines.Pipe<int, int, int, int>([1, 2], Pipelines.Append(0), false);
    var steps;
    items, steps := AppendViews.Collect(v.appended);
    var w := Pipelines.Pipe<int, int, int, int>([], Pipelines.Append(0), false);
    single, steps := AppendViews.Collect(w.appended);
  }

  /** The only descending permutation of [2, 1, 4, 3, 5] is [5, 4, 3, 2, 1]. */
  lemma DescendingIsUnique(buffer: seq<int>)
    requires multiset(buffer) == multiset([2, 1, 4, 3, 5])
    requires OrderedViews.OrderedBy(OrderedViews.Greater, Identity, buffer)
    ensures buffer == [5, 4, 3, 2, 1]
  {
    var expected := [5, 4, 3, 2, 1];
    assert multiset(expected) == multiset([2, 1, 4, 3, 5]) by {
      calc {
        multiset([5, 4, 3, 2, 1]);
        multiset{5, 4, 3, 2, 1};
        multiset{2, 1, 4, 3, 5};
        multiset([2, 1, 4, 3, 5]);
      }
    }
    assert OrderedViews.OrderedBy(OrderedViews.Greater, Identity, expected) by {
      forall i | 0 < i < |expected|
        ensures !OrderedViews.Comparer.Greater.Compare(Identity(expected[i]), Identity(expected[i - 1]))
      {
        assert expected[i] == 5 - i && expected[i - 1] == 6 - i;
      }
    }
    assert forall x, y :: x in expected && y in expected && Identity(x) == Identity(y) ==> x == y;
    OrderedViews.OrderedPermutationUnique(OrderedViews.Greater, Identity, expected, buffer);
  }

  /**
   * [2, 1, 4, 3, 5] | OrderByDescending() yields [5, 4, 3, 2, 1]; asking for
   * begin and end a second time drains the source no second time.
   */
  method OrderScenario() returns (items: seq<int>, again: seq<int>, ghost drainCount: nat)
    ensures items == [5, 4, 3, 2, 1] && again == items
    ensures drainCount == 1
  {
    var out := Pipelines.Pipe<int, int, int, int>([2, 1, 4, 3, 5], Pipelines.Order(OrderedViews.Greater, Identity), false);
    var v := out.ordered;
    var b := v.Begin();
    var e := v.End();
    items := v.buffer[b..e];
    assert items == v.buffer;
    DescendingIsUnique(items);
    b := v.Begin();
    e := v.End();
    again := v.buffer[b..e];
    drainCount := v.drains;
  }

  /**
   * First(age > 30) over Jake (20), Alexander (35), Emily (27) is Alexander;
   * FirstOrDefault(age < 20) over the same people is empty.
   */
  method FirstScenario() returns (found: Result<Person>, none: Option<Person>)
    ensures found == Ok(Person("Alexander", 35))
    ensures none == None
  {
    var people := [Person("Jake", 20), Person("Alexander", 35), Person("Emily", 27)];
    var f := Pipelines.Pipe<Person, int, int, int>(people, Pipelines.FirstWhere((p: Person) => p.age > 30), false);
    found := f.found;
    assert people[1..][1..] == [Person("Emily", 27)];
    var n := Pipelines.Pipe<Person, int, int, int>(people, Pipelines.FirstOrDefaultWhere((p: Person) => p.age < 20), false);
    none := n.optional;
  }

  /** First and Last of an empty range throw "Range is empty"; their OrDefault forms are empty. */
  method EmptyScenario() returns (first: Result<int>, last: Result<int>, firstOr: Option<int>, lastOr: Option<int>)
    ensures first == Err(RuntimeError("Range is empty")) && last == Err(RuntimeError("Range is empty"))
    ensures firstOr == None && lastOr == None
  {
    var f := Pipelines.Pipe<int, int, int, int>([], Pipelines.First, false);
    var l := Pipelines.Pipe<int, int, int, int>([], Pipelines.Last, false);
    var fd := Pipelines.Pipe<int, int, int, int>([], Pipelines.FirstOrDefault, false);
    var ld := Pipelines.Pipe<int, int, int, int>([], Pipelines.LastOrDefault, false);
    first, last, firstOr, lastOr := f.found, l.found, fd.optional, ld.optional;
  }
}
