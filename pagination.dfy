/** The generic pager (components/ui/pagination.tsx): a "Halaman a dari t"
    label and two buttons. Numbers are defaulted with JavaScript's `||`, for
    which 0 is false. */
module Pagination {
  import opened Common

  /** `x || fallback` on a number that may be absent: absent and 0 fall through. */
  function NumberOr(x: Option<int>, fallback: int): (r: int)
    ensures x.Some? && x.value != 0 ==> r == x.value
    ensures x.None? || x.value == 0 ==> r == fallback
  {
    if x.Some? && x.value != 0 then x.value else fallback
  }

  /** `currentPage || page || 1`. */
  function ActivePage(currentPage: Option<int>, page: int): (r: int)
    ensures r != 0
    ensures currentPage.Some? && currentPage.value != 0 ==> r == currentPage.value
    ensures (currentPage.None? || currentPage.value == 0) && page != 0 ==> r == page
    ensures (currentPage.None? || currentPage.value == 0) && page == 0 ==> r == 1
  {
    NumberOr(currentPage, NumberOr(Some(page), 1))
  }

  /** `totalPages || 1`. */
  function SafeTotal(totalPages: int): (r: int)
    ensures r != 0
    ensures totalPages != 0 ==> r == totalPages
    ensures totalPages == 0 ==> r == 1
  {
    NumberOr(Some(totalPages), 1)
  }

  /** The two numbers of the label, with its `safeTotal === 0 ? 0 : …` guards. */
  datatype PageLabel = PageLabel(shown: int, of: int)

  function Label(activePage: int, safeTotal: int): PageLabel {
    PageLabel(if safeTotal == 0 then 0 else activePage, if safeTotal == 0 then 0 else safeTotal)
  }

  predicate PrevDisabled(activePage: int, safeTotal: int) {
    activePage == 1 || safeTotal == 0
  }

  predicate NextDisabled(activePage: int, safeTotal: int) {
    activePage >= safeTotal || safeTotal == 0
  }

  function PrevRequest(activePage: int): int { activePage - 1 }

  function NextRequest(activePage: int): int { activePage + 1 }

  /** Since the defaulted total is never 0, the `safeTotal === 0` branches are
      dead: the label always shows the active page and the total, Prev is
      disabled exactly on page 1, and Next exactly from the last page on. */
  lemma ZeroTotalBranchesAreDead(currentPage: Option<int>, page: int, totalPages: int)
    ensures var a := ActivePage(currentPage, page);
            var t := SafeTotal(totalPages);
            && Label(a, t) == PageLabel(a, t)
            && (PrevDisabled(a, t) <==> a == 1)
            && (NextDisabled(a, t) <==> a >= t)
  {
  }

  /** With the active page inside [1, safeTotal], an enabled button requests
      the neighbouring page, which is again inside [1, safeTotal]. */
  lemma RequestsStayInRange(currentPage: Option<int>, page: int, totalPages: int)
    requires 1 <= ActivePage(currentPage, page) <= SafeTotal(totalPages)
    ensures var a := ActivePage(currentPage, page);
            var t := SafeTotal(totalPages);
            && (!PrevDisabled(a, t) ==> 1 <= PrevRequest(a) <= t && PrevRequest(a) == a - 1)
            && (!NextDisabled(a, t) ==> 1 <= NextRequest(a) <= t && NextRequest(a) == a + 1)
  {
  }

  /** With no pages at all the pager still reads "1 of 1" and both buttons are disabled. */
  lemma NoPagesShowsOneOfOne()
    ensures var a := ActivePage(None, 0);
            var t := SafeTotal(0);
            Label(a, t) == PageLabel(1, 1) && PrevDisabled(a, t) && NextDisabled(a, t)
  {
  }
}
