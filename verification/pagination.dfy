/** The "Anterior" / "Siguiente" controls shared by the task and project
    lists (src/pages/Tasks.tsx:308-328, src/pages/Projects.tsx:218-238). */
module Pagination {

  /** The controls are drawn only when there is more than one page: exactly
      when page 1 is a valid page whose next button is enabled. */
  function ShowControls(totalPages: int): (b: bool)
    ensures b <==> InRange(1, totalPages) && !NextDisabled(1, totalPages)
  {
    totalPages > 1
  }

  predicate PrevDisabled(page: int) {
    page == 1
  }

  predicate NextDisabled(page: int, totalPages: int) {
    page == totalPages
  }

  predicate InRange(page: int, totalPages: int) {
    1 <= page <= totalPages
  }

  /** `Math.max(1, p - 1)`. */
  function PrevPage(page: int): (r: int)
    ensures r >= 1
    ensures page > 1 ==> r == page - 1
    ensures page <= 1 ==> r == 1
  {
    if 1 >= page - 1 then 1 else page - 1
  }

  /** `Math.min(totalPages, p + 1)`. */
  function NextPage(page: int, totalPages: int): (r: int)
    ensures r <= totalPages
    ensures page < totalPages ==> r == page + 1
    ensures page >= totalPages ==> r == totalPages
  {
    if totalPages <= page + 1 then totalPages else page + 1
  }

  /** From a page within [1, totalPages] both buttons stay within it. */
  lemma NavigationStaysInRange(page: int, totalPages: int)
    requires InRange(page, totalPages)
    ensures InRange(PrevPage(page), totalPages)
    ensures InRange(NextPage(page, totalPages), totalPages)
  {
  }

  /** An enabled button moves by exactly one page, and the two buttons undo
      each other. */
  lemma EnabledButtonsStepByOne(page: int, totalPages: int)
    requires InRange(page, totalPages)
    ensures !PrevDisabled(page) ==> PrevPage(page) == page - 1 && NextPage(PrevPage(page), totalPages) == page
    ensures !NextDisabled(page, totalPages) ==>
      NextPage(page, totalPages) == page + 1 && PrevPage(NextPage(page, totalPages)) == page
  {
  }
}
