# Lazy views and range adaptors: a Dafny model

This project models the core of a header-only C++20 library of LINQ-style
range adaptors. The library has two parts.

- **Lazy views** (`Views.h`). Each view wraps a source range and produces its
  elements on demand through its own cursor type:
  - `AppendView` yields the source, then one extra value;
  - `ChunkView` yields consecutive sub-ranges of at most `size` elements;
  - `ConcatView` yields one range, then a second;
  - `OrderedView` copies its source into a private buffer and sorts it by a
    comparer over projected keys, once, the first time `begin()` or `end()`
    is asked for.
- **Range adaptors** (`RangeAdaptors.h`). These are function objects joined to a
  range with `range | adaptor` (one `operator|` shared by all of them).
  `Append`, `Chunk`, `Concat` and `Order` (sort by a comparer and projection)
  build the lazy views above. The others are eager terminal operators:
  - `Aggregate` in both forms;
  - `All`, `Any`, `Contains` and `Count`;
  - `ElementAt` and `ElementAtOrDefault`;
  - the `First`/`Last` families, with and without a predicate;
  - `Min` and `Max`, with a projection;
  - `ToUnorderedMap`.

## How the model is built

- A finite source range is a `seq<T>`.
- A C++ iterator is a class with mutable cursor fields, whose `Advance`
  method `modifies this`.
- Each cursor carries a ghost abstraction:
  - append and concat cursors have `Offset()`, the index they denote in the
    view's `Elements()`;
  - the chunk cursor has `Remaining()`, the chunks it has still to yield.
- The append, chunk and concat modules each have a `Collect` method. It
  drives the view the way a range-for does: `Begin`, then `Deref` and
  `Advance` until the cursor `Equals` `End`. Its contract states what the
  whole iteration yields. The ordered view's `Begin` and `End` are indices
  into its sorted buffer, so its iteration is that buffer.
- An adaptor object is a value of `Pipelines.Adaptor`, one case per adaptor,
  holding the parameters it captured. `Pipelines.Pipe` is `range | adaptor`:
  it hands the range to that adaptor's operation. A view that `Pipe` builds is
  a range again once collected, so pipelines such as
  `range | Concat(other) | Count()` chain through `Pipe` twice.
- A thrown exception is the `Err` case of `Result` (or the `Fail` case of
  `Outcome`). It carries the standard exception class and the library's
  exact message.
- `std::optional` is `Option`.
- `std::ranges::advance(it, n, bound)` is `StdRanges.AdvanceBounded` over
  index cursors.
- The compile-time branch `if constexpr (bidirectional_range<...>)` in the
  `Last` family is a `bidirectional: bool` parameter. Each method is proved
  correct on both branches.
- The `OrderedView` comparer is `Comparer.Less` (`std::less`) or
  `Comparer.Greater` (`std::greater`) over `int` keys.
- The sort itself is a reference insertion sort, `OrderedViews.Sort`. The
  model claims of it only what `std::ranges::sort` promises: an ordered
  permutation.
- A ghost counter `drains` records how often the source has been read into
  the buffer.

Three behaviours of the code that the model keeps exactly as written:

- The code throws `std::runtime_error("Range is empty")` from `First`/`Last`,
  `std::runtime_error("Item not found")` from the predicate forms, and
  `std::out_of_range("Position is out of range")` from `ElementAt`. The model
  uses these classes and messages.
- `ToUnorderedMap` never fails on a duplicate key. `emplace` keeps the first
  element for each key, and the model does the same.
- The cursors are forward-only. No view defines `operator--`.

## Model

| member | source | states |
|---|---|---|
| StdRanges.AdvanceBounded | Views.h:180 | the cursor moves forward by exactly n, or stops at the bound if that comes first, and never passes the bound |
| AppendViews.AppendView.constructor | Views.h:111-114 | the view stores its source and the value to append |
| AppendViews.AppendView.Begin | Views.h:118-128 | begin is at offset 0, in phase InAppend exactly when the source is empty and InRange otherwise |
| AppendViews.AppendView.End | Views.h:130-133 | end sits at the source end in phase InEnd, one past the appended value |
| AppendViews.AppendIterator.constructor | Views.h:50-54 | the cursor stores its view, its source cursor and its phase |
| AppendViews.AppendIterator.Deref | Views.h:56-69 | yields the element at the cursor's offset in source followed by value; throws out_of_range "Cannot get value at end" exactly in phase InEnd |
| AppendViews.AppendIterator.Advance | Views.h:71-92 | moves one element further; InRange becomes InAppend when the source cursor reaches the source end; in InEnd it throws out_of_range "Cannot iterate out of end" and changes nothing |
| AppendViews.AppendIterator.Equals | Views.h:101-104 | equal source cursor and equal phase hold exactly when both cursors denote the same position of the view |
| AppendViews.Collect | Views.h:56-133 | iterating from begin to end yields every source element and then the value, in exactly source size + 1 steps |
| ChunkViews.ChunksFlatten | Views.h:171-189 | the chunks, concatenated in order, give back the source |
| ChunkViews.ChunksShape | Views.h:171-189 | there are no chunks exactly when the source is empty; every chunk but the last holds size elements; the last holds 1 to size, so no empty trailing chunk is produced |
| ChunkViews.ChunksCount | Views.h:229-233 | the number of chunks is (n + size - 1) / size |
| ChunkViews.SizeBounds | Views.h:229-233 | the number of chunks is the ceiling of n / size: (count - 1) * size < n <= count * size |
| ChunkViews.ChunkView.constructor | Views.h:206-209 | the view stores its source and a positive chunk size |
| ChunkViews.ChunkView.Create | Views.h:206-214 | a size of 0 throws invalid_argument "Size cannot be 0"; any other size builds the view |
| ChunkViews.ChunkView.Begin | Views.h:219-222 | begin is at the source start, with every chunk still to come |
| ChunkViews.ChunkView.End | Views.h:224-227 | end is at the source end, with no chunk left |
| ChunkViews.ChunkView.Size | Views.h:229-233 | size() is the number of chunks an iteration yields, and the ceiling of n / size |
| ChunkViews.ChunkIterator.constructor | Views.h:165-169 | the cursor stores the size, its position and the source end |
| ChunkViews.ChunkIterator.Deref | Views.h:171-183 | yields the next chunk still to come, or an empty sub-range at the end |
| ChunkViews.ChunkIterator.Advance | Views.h:185-189 | moves past exactly the chunk just yielded, never beyond the source end; at the end it stays there |
| ChunkViews.ChunkIterator.Equals | Views.h:198-201 | two cursors of one view compare equal exactly when they have the same chunks left to yield; against end, exactly when none remains, which is when the cursor is at the source end |
| ChunkViews.Collect | Views.h:171-233 | a full iteration yields chunks that concatenate to the source, all but the last of the given size, the last non-empty, and as many as size() reports |
| ConcatViews.ConcatView.constructor | Views.h:343-346 | the view stores both ranges |
| ConcatViews.ConcatView.Begin | Views.h:351-354 | begin is at offset 0 and starts in the second range exactly when the first is empty |
| ConcatViews.ConcatView.End | Views.h:356-359 | end is in the second range, with both cursors at their range ends |
| ConcatViews.ConcatView.Size | Views.h:361-364 | size() is the number of elements an iteration yields |
| ConcatViews.ConcatIterator.constructor | Views.h:268-291 | the end cursor is flagged second with both cursors at their ends; the begin cursor has both cursors at their starts and is flagged second exactly when the first range is empty |
| ConcatViews.ConcatIterator.Deref | Views.h:293-303 | yields the element at the cursor's offset in first followed by second |
| ConcatViews.ConcatIterator.Advance | Views.h:305-321 | moves one element further; stepping off the last element of the first range sets the flag and restarts the second cursor at its start |
| ConcatViews.ConcatIterator.Equals | Views.h:330-336 | equal flags and equal active cursors hold exactly when both cursors denote the same position, whatever the inactive cursor holds |
| ConcatViews.Collect | Views.h:268-364 | a full iteration yields the first range and then the second, in as many steps as size() reports |
| OrderedViews.Sort | Views.h:414 | the sorted buffer is a permutation of its input, ordered by the comparer on projected keys |
| OrderedViews.OrderedPermutationUnique | Views.h:408-416 | when projected keys tell the elements apart, there is only one ordered permutation, so the sorted buffer is fully determined |
| OrderedViews.OrderedView.constructor | Views.h:385-389 | construction only stores the source, comparer and projection; nothing is sorted and the source is not read |
| OrderedViews.OrderedView.EnsureSorted | Views.h:408-416 | the first call builds an ordered permutation of the source, reading the source once; later calls change nothing |
| OrderedViews.OrderedView.Begin | Views.h:393-397 | sorts if not yet done, then returns the start of the buffer; a second call does not read the source again |
| OrderedViews.OrderedView.End | Views.h:399-403 | sorts if not yet done, then returns the end of the buffer, whose length is the source's |
| Pipelines.Pipe | RangeAdaptors.h:21-31 | piping a range into an adaptor gives, for each adaptor, exactly what that adaptor's own operation promises: the fold, the quantifier, the element or exception, the optional, the fresh view over the range, or the map |
| Pipelines.ConcatThenCount | Views.h:361-364 | piping a range into Concat and the result into Count gives the sum of both sizes, which is what the view's size() reports |
| Pipelines.ChunkThenCount | Views.h:229-233 | piping a range into Chunk(0) throws invalid_argument; into Chunk(n) and then Count gives the ceiling of the size over n, which is what the view's size() reports |
| Pipelines.OrderThenFirst | RangeAdaptors.h:524-545 | piping a range into an ascending Order and then First throws on an empty range, and otherwise gives an element of the range whose key equals Min's |
| Adaptors.Append | RangeAdaptors.h:137-141 | builds an AppendView over the range and value |
| Adaptors.Chunk | RangeAdaptors.h:168-172 | builds a ChunkView, or throws invalid_argument for size 0 |
| Adaptors.Concat | RangeAdaptors.h:184-190 | builds a ConcatView of the range and the other range |
| Adaptors.Order | RangeAdaptors.h:540-545 | builds an OrderedView that has not sorted yet |
| Adaptors.FoldLeftCons | RangeAdaptors.h:67-77 | the accumulator absorbs the first element first |
| Adaptors.FoldLeftAppend | RangeAdaptors.h:67-77 | aggregating a concatenation aggregates the second part from the first part's result |
| Adaptors.AggregateSeed | RangeAdaptors.h:67-77 | the result is the left fold of the function over the range from the seed |
| Adaptors.Aggregate | RangeAdaptors.h:43-53 | the result is the left fold of the function over the range from the value-initialised element |
| Adaptors.All | RangeAdaptors.h:89-101 | true exactly when every element satisfies the predicate |
| Adaptors.Any | RangeAdaptors.h:113-125 | true exactly when some element satisfies the predicate |
| Adaptors.Contains | RangeAdaptors.h:202-215 | true exactly when the value occurs in the range |
| Adaptors.Count | RangeAdaptors.h:220-224 | the number of increments from begin to end is the number of elements |
| Adaptors.ElementAt | RangeAdaptors.h:235-247 | yields the element at the position exactly when the position is below the size; otherwise throws out_of_range "Position is out of range"; a position that turns negative as advance's signed count is excluded on a non-empty range |
| Adaptors.ElementAtOrDefault | RangeAdaptors.h:258-272 | is empty exactly where ElementAt throws, and holds ElementAt's element otherwise |
| Adaptors.FindFirst | RangeAdaptors.h:298-310 | the index found satisfies the predicate and no earlier one does; none is found only when no element satisfies it |
| Adaptors.FindLast | RangeAdaptors.h:392-424 | the index found satisfies the predicate and no later one does; none is found only when no element satisfies it |
| Adaptors.First | RangeAdaptors.h:277-286 | the first element; throws runtime_error "Range is empty" exactly on an empty range |
| Adaptors.FirstOrDefault | RangeAdaptors.h:315-326 | is empty exactly where First throws, and holds First's element otherwise |
| Adaptors.FirstWhere | RangeAdaptors.h:298-310 | the first element satisfying the predicate; throws runtime_error "Item not found" when none does |
| Adaptors.FirstOrDefaultWhere | RangeAdaptors.h:338-352 | is empty exactly where First(pred) throws, and holds its element otherwise |
| Adaptors.Last | RangeAdaptors.h:357-380 | the last element on both the bidirectional and the forward-scan path; throws runtime_error "Range is empty" exactly on an empty range |
| Adaptors.LastOrDefault | RangeAdaptors.h:429-454 | empty on an empty range, the last element otherwise, on both paths |
| Adaptors.LastWhere | RangeAdaptors.h:392-424 | the last element satisfying the predicate, on both the reverse-search and the forward-scan path; throws runtime_error "Item not found" when none does |
| Adaptors.LastOrDefaultWhere | RangeAdaptors.h:466-496 | is empty exactly where Last(pred) throws, and holds its element otherwise, on both paths |
| Adaptors.Min | RangeAdaptors.h:524-528 | an element of the range whose projected key is no greater than any other; among equal least keys, the leftmost |
| Adaptors.Max | RangeAdaptors.h:508-512 | an element of the range whose projected key is no less than any other; among equal greatest keys, the leftmost |
| Adaptors.ToUnorderedMap | RangeAdaptors.h:559-577 | the map's keys are exactly the projected keys of the range, and each maps to the projected element of the first item with that key |
| Scenarios.ChunkScenario | Views.h:171-214 | [1, 2, 3, 4, 5] in chunks of 2 is [1, 2], [3, 4], [5]; a chunk size of 0 throws invalid_argument |
| Scenarios.ConcatScenario | Views.h:268-364 | [1, 2, 3] piped into Concat([4, 5]) yields [1, 2, 3, 4, 5] with size 5, and piping that into Count gives 5 |
| Scenarios.AppendScenario | Views.h:56-133 | appending 0 to [1, 2] yields [1, 2, 0]; appending to an empty range yields only [0] |
| Scenarios.DescendingIsUnique | Views.h:408-416 | the only permutation of [2, 1, 4, 3, 5] in descending order is [5, 4, 3, 2, 1] |
| Scenarios.OrderScenario | Views.h:393-416 | ordering [2, 1, 4, 3, 5] descending yields [5, 4, 3, 2, 1]; asking for begin and end again yields the same, and the source has been drained exactly once |
| Scenarios.FirstScenario | RangeAdaptors.h:298-352 | the first person older than 30 is found; FirstOrDefault for age below 20 is empty |
| Scenarios.EmptyScenario | RangeAdaptors.h:277-454 | First and Last of an empty range throw "Range is empty"; their OrDefault forms are empty |

## Left out

- `AverageAdaptor`: it computes in floating point, which the model does not cover.
- `ToAdaptor` and the one-selector `ToUnorderedMapAdaptor2` are not part of this model.
- The factory functions in `Ranges.h` are not part of this model. Some build the adaptor objects that the cases of `Pipelines.Adaptor` stand for. Others build adaptors that are left out here (`Average`, `To`, `ToArray`). The rest forward to `std::views` adaptors (`AsView`, `Cast`, `Empty`, `Join`, `Range`, `Reverse`, `Select`, `Slice`, `Where`), which are outside this library's own code. Neither kind is modelled beyond the `Pipelines.Adaptor` cases.
- Post-increment, default/copy/move constructors and assignments, `constexpr`, and `view_interface` are left out: they add no behaviour beyond the members modelled.
- `all_t` ownership and references are left out. Sources are immutable sequences, so the model does not capture aliasing, writes through a dereferenced element, or `ConcatAdaptor` holding a `TOtherRange&&` that can dangle.
- Laziness over a live upstream range is left out. A source is a finished sequence, so the model cannot tell when, or how often, an upstream view is pulled. The exception is `OrderedView`'s single drain, which the ghost counter records.
- Single-pass input ranges are left out. Every source can be traversed more than once.
- ChunkViews.ChunkView.Size: does not model `size_t` wrap-around of `n + size - 1`. Integers are unbounded here. The wrap happens whenever n + size exceeds 2^64, which a huge chunk size reaches on a short range: a 2-element range with size `SIZE_MAX` has size() 0 in the library, while the model says 1.
- ConcatViews.ConcatView.Size: does not model `size_t` wrap-around of the sum of the two sizes. Integers are unbounded here, and that wrap needs two ranges whose sizes add up to 2^64.
- Adaptors.ElementAt: `std::ranges::advance` takes its count as the signed `iter_difference_t`, so a `Position` above 2^63 - 1 (a caller's -1, say) arrives negative. On a non-empty range that is undefined behaviour, and the model excludes it by a precondition instead of modelling what the library then does. On an empty range the bound is already reached and out_of_range is thrown, which the model keeps.
- Adaptors.ElementAtOrDefault: the same precondition on `Position`, for the same reason.
- ChunkViews.ChunkIterator.Deref: a chunk size above 2^63 - 1 reaches `std::ranges::advance` as a negative count, which is undefined behaviour away from the end. The model requires a size of at most 2^63 - 1 whenever the cursor is not at the end, and so do ChunkViews.Collect, and Pipelines.ChunkThenCount, for a non-empty source.
- ChunkViews.ChunkIterator.Advance: the same precondition on the chunk size, for the same reason.
- User callables are left out as effects. Predicates, selectors, projections and fold functions are pure, total Dafny functions. The model therefore does not capture exceptions they throw, or how often and in what order they are called. Examples are the early exit of All, Any and First(pred), the reverse search of Last(pred) on a bidirectional range against the full forward scan otherwise, and `emplace` evaluating both selectors even for a key already present. Only the results are modelled, and those agree on every path.
- ConcatViews.ConcatIterator.Deref: dereferencing the end cursor is undefined behaviour in the library, so the model makes it a precondition.
- ConcatViews.ConcatIterator.Advance: advancing the end cursor is undefined behaviour in the library, so the model makes it a precondition.
- ChunkViews.ChunkIterator.Equals: two cursors must belong to one view. The same holds for the append and concat cursors. Comparing cursors of different views is not meaningful in the library.
- OrderedViews.OrderedView.EnsureSorted: keys are `int` and the comparer is `std::less` or `std::greater`. Other key types and comparers are not modelled.
- OrderedViews.Sort: stands in for `std::ranges::sort` and claims only an ordered permutation, not stability, since `std::ranges::sort` is not stable. Elements with equal keys may come out in any order.
- The library sets the sorted flag before copying and sorting. If the copy or the comparer throws, the flag stays set over an incomplete buffer. The model has no exceptions there, so it does not capture this.
- Adaptors.Aggregate: the value-initialised `range_value_t{}` starting value is a parameter `valueInit`, since a generic type has no default value here.
- Adaptors.Min: on an empty range `std::ranges::min` is undefined behaviour, so a non-empty range is a precondition. The projection returns `int` and the comparer is `std::less`.
- Adaptors.Max: on an empty range `std::ranges::max` is undefined behaviour, so a non-empty range is a precondition. The projection returns `int` and the comparer is `std::less`.
- Adaptors.Last: the compile-time `bidirectional_range` test is a run-time flag. The same holds for LastOrDefault, LastWhere and LastOrDefaultWhere. Whether a range is bidirectional is left to the caller, since every sequence here could be traversed either way.
- Adaptors.ToUnorderedMap: the result is a `map`. Hashing, bucket order and iteration order of `std::unordered_map` are not modelled.
