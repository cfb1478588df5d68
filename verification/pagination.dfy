/**
 * The Pagination component (frontend/src/components/Pagination.js) and the
 * `Math.ceil(totalCount / PAGE_SIZE)` every list page feeds it.
 */
module Pagination {

  /** `Math.ceil(totalCount / pageSize)`: the fewest pages of `pageSize` rows that hold `totalCount` rows. */
  function TotalPages(totalCount: nat, pageSize: nat): (t: nat)
    requires pageSize > 0
    ensures t * pageSize >= totalCount
    ensures t > 0 ==> (t - 1) * pageSize < totalCount
    ensures totalCount == 0 <==> t == 0
  {
    var t := (totalCount + pageSize - 1) / pageSize;
    assert t * pageSize <= totalCount + pageSize - 1 < (t + 1) * pageSize;
    t
  }

  /** What the component renders: nothing, or the two buttons with their `disabled` flags. */
  datatype View = Hidden | Shown(prevDisabled: bool, nextDisabled: bool)

  datatype Click = Prev | Next

  function Render(page: int, totalPages: int): (v: View)
    ensures v.Hidden? <==> totalPages <= 1
    ensures v.Shown? ==> (v.prevDisabled <==> page <= 1)
    ensures v.Shown? ==> (v.nextDisabled <==> page >= totalPages)
  {
    if totalPages <= 1 then Hidden else Shown(page <= 1, page >= totalPages)
  }

  /** A click is possible when the buttons are shown and that button is enabled. */
  predicate Enabled(v: View, c: Click) {
    v.Shown? && (if c == Prev then !v.prevDisabled else !v.nextDisabled)
  }

  /** The page number passed to `onPageChange`. */
  function Target(page: int, c: Click): int {
    if c == Prev then page - 1 else page + 1
  }

  /**
   * From a page within `[1, totalPages]` every enabled click asks for a
   * page that is again within `[1, totalPages]`, one step away.
   */
  lemma ClickStaysInBounds(page: int, totalPages: int, c: Click)
    requires 1 <= page <= totalPages
    requires Enabled(Render(page, totalPages), c)
    ensures 1 <= Target(page, c) <= totalPages
    ensures Target(page, c) == page - 1 || Target(page, c) == page + 1
  {
  }

  /** Which clicks are enabled at the two ends of the range, and that a single page shows no control at all. */
  lemma EnabledAtBounds(page: int, totalPages: int)
    ensures Enabled(Render(page, totalPages), Prev) <==> totalPages > 1 && page > 1
    ensures Enabled(Render(page, totalPages), Next) <==> totalPages > 1 && page < totalPages
  {
  }

  /** The list pages' 20-row pages: 45 rows make three pages, so page 4 is never requested from page 3. */
  lemma FortyFiveRows()
    ensures TotalPages(45, 20) == 3
    ensures !Enabled(Render(3, TotalPages(45, 20)), Next)
  {
  }
}
