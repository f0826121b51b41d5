// The previous / next page buttons shared by the order, post and product
// lists: `Math.max(1, p - 1)` and `Math.min(totalPages, p + 1)`.

module Pagination {

  /** The page the "previous" button goes to. */
  function PrevPage(p: int): (r: int)
    ensures r >= 1 && r >= p - 1
    ensures p >= 1 ==> r <= p && (r == p <==> p == 1)
  {
    if p - 1 > 1 then p - 1 else 1
  }

  /** The page the "next" button goes to; with no pages at all it is 0. */
  function NextPage(p: int, totalPages: int): (r: int)
    ensures r <= totalPages && r <= p + 1
    ensures 1 <= p <= totalPages ==> p <= r && (r == p <==> p == totalPages)
  {
    if totalPages < p + 1 then totalPages else p + 1
  }

  /** From any page in range, both buttons lead to a page in range, and they undo each other. */
  lemma PageButtonsStayInRange(p: int, totalPages: int)
    requires 1 <= p <= totalPages
    ensures 1 <= PrevPage(p) <= totalPages && 1 <= NextPage(p, totalPages) <= totalPages
    ensures p > 1 ==> NextPage(PrevPage(p), totalPages) == p
    ensures p < totalPages ==> PrevPage(NextPage(p, totalPages)) == p
  {
  }
}
