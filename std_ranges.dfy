/** The parts of the standard ranges library that the views rely on, over index cursors. */
module StdRanges {

  /**
   * The largest iter_difference_t of a contiguous iterator (ptrdiff_t on a
   * 64-bit platform). std::ranges::advance takes its count in this signed
   * type, so a size_t count above it arrives negative.
   */
  const DifferenceMax: nat := 0x7FFF_FFFF_FFFF_FFFF

  /** std::ranges::advance(it, n, bound): step the cursor `i` forward `n` times, stopping at `bound`. */
  function AdvanceBounded(i: nat, n: nat, bound: nat): (r: nat)
    requires i <= bound
    ensures i <= r <= bound
    ensures r - i <= n
    ensures r == i + n || r == bound
  {
    if bound - i <= n then bound else i + n
  }
}
