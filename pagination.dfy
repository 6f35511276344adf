/** The page control shared by the two admin tables
    (src/components/Dashboard/ManageArticles.jsx and ManageUsers.jsx): a
    Prev button, one numbered button per page and a Next button, over a page
    count reported by the server. */
module Pagination {
  import opened Common

  /** `data?.totalPages || 1`: a missing or zero count becomes one page. */
  function TotalPages(reported: Option<nat>): (total: nat)
    ensures total >= 1
    ensures reported.Some? && reported.value != 0 ==> total == reported.value
    ensures reported.None? || reported.value == 0 ==> total == 1
  {
    if reported.Some? && reported.value != 0 then reported.value else 1
  }

  /** Prev: `Math.max(prev - 1, 1)`. */
  function PrevPage(page: int): (p: int)
    ensures p >= 1
    ensures page > 1 ==> p == page - 1
    ensures page <= 1 ==> p == 1
  {
    if page - 1 > 1 then page - 1 else 1
  }

  /** Next: `Math.min(prev + 1, totalPages)`. */
  function NextPage(page: int, total: int): (p: int)
    ensures p <= total
    ensures page < total ==> p == page + 1
    ensures page >= total ==> p == total
  {
    if page + 1 < total then page + 1 else total
  }

  /** The labels of the numbered buttons, `[...Array(totalPages)]` mapped to
      `idx + 1`; the button at `idx` sets the page to its label. */
  function PageButtons(total: nat): (labels: seq<int>)
    ensures |labels| == total
    ensures forall idx :: 0 <= idx < total ==> labels[idx] == idx + 1
  {
    seq(total, idx => idx + 1)
  }

  predicate PrevDisabled(page: int) { page == 1 }

  predicate NextDisabled(page: int, total: int) { page == total }

  predicate InBounds(page: int, total: int) { 1 <= page <= total }

  /** Every button keeps a page that is in bounds in bounds. */
  lemma ButtonsKeepPageInBounds(page: int, total: nat)
    requires InBounds(page, total)
    ensures InBounds(PrevPage(page), total)
    ensures InBounds(NextPage(page, total), total)
    ensures forall idx :: 0 <= idx < total ==> InBounds(PageButtons(total)[idx], total)
  {
  }

  /** Within bounds, a button is disabled exactly when pressing it would not
      move the page. */
  lemma DisabledExactlyWhenNoMove(page: int, total: nat)
    requires InBounds(page, total)
    ensures PrevDisabled(page) <==> PrevPage(page) == page
    ensures NextDisabled(page, total) <==> NextPage(page, total) == page
  {
  }

  /** When a new response reports fewer pages than the current one, Next is
      enabled and brings the page back to the last page. */
  lemma NextRecoversFromStalePage(page: int, total: nat)
    requires total >= 1 && page > total
    ensures !NextDisabled(page, total)
    ensures NextPage(page, total) == total && InBounds(NextPage(page, total), total)
  {
  }

  /** The current page of a table; only the buttons change it. */
  class Pager {
    var page: int

    constructor ()
      ensures page == 1 && InBounds(page, 1)
    {
      page := 1;
    }

    method ClickPrev()
      modifies this
      ensures page == PrevPage(old(page))
      ensures page >= 1
    {
      page := if page - 1 > 1 then page - 1 else 1;
    }

    method ClickNext(total: nat)
      requires total >= 1
      modifies this
      ensures page == NextPage(old(page), total)
      ensures old(page) >= 1 ==> InBounds(page, total)
    {
      page := if page + 1 < total then page + 1 else total;
    }

    /** The numbered button at position `idx`; only `total` of them exist. */
    method ClickPage(idx: nat, total: nat)
      requires idx < total
      modifies this
      ensures page == PageButtons(total)[idx]
      ensures InBounds(page, total)
    {
      page := idx + 1;
    }
  }
}
