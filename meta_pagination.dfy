/**
  SkillSync's paginated response: the data of one page and its metadata,
  built once by the `PaginationMeta` and `PaginatedResponseDto` constructors
  and never changed afterwards.
*/
module Pagination {
  import opened Paging

  /**
    The pagination query of a request. `skip` is the number of items before
    the requested page, as the query object provides it.
  */
  datatype PaginationQuery = PaginationQuery(page: int, limit: int, skip: nat)

  datatype PaginationMeta = PaginationMeta(
    currentPage: int, itemCount: nat, itemsPerPage: int, totalItems: nat, totalPages: PageCount)

  datatype PaginatedResponse<T> = PaginatedResponse(data: seq<T>, meta: PaginationMeta)

  /**
    `new PaginationMeta(...)`: page and page size copied from the query, the
    counts as given, and `totalPages = Math.ceil(totalItems / itemsPerPage)`:
    enough pages for every item and no empty last page, none at all when there
    are no items.
  */
  function NewPaginationMeta(itemCount: nat, totalItems: nat, query: PaginationQuery): (m: PaginationMeta)
    ensures m.currentPage == query.page && m.itemsPerPage == query.limit
    ensures m.itemCount == itemCount && m.totalItems == totalItems
    ensures query.limit > 0 ==>
              m.totalPages.Pages? && m.totalPages.n * query.limit >= totalItems &&
              (totalItems > 0 ==> (m.totalPages.n - 1) * query.limit < totalItems) &&
              (totalItems == 0 ==> m.totalPages.n == 0)
    ensures query.limit == 0 ==> !m.totalPages.Pages?
  {
    PaginationMeta(query.page, itemCount, query.limit, totalItems, TotalPages(totalItems, query.limit))
  }

  /** `new PaginatedResponseDto(data, totalItems, query)`: the data kept as given, its length as `itemCount`. */
  function NewPaginatedResponse<T>(data: seq<T>, totalItems: nat, query: PaginationQuery): (r: PaginatedResponse<T>)
    ensures r.data == data && r.meta.itemCount == |data|
    ensures r.meta.currentPage == query.page && r.meta.itemsPerPage == query.limit && r.meta.totalItems == totalItems
    ensures query.limit > 0 ==>
              r.meta.totalPages.Pages? && r.meta.totalPages.n * query.limit >= totalItems &&
              (totalItems > 0 ==> (r.meta.totalPages.n - 1) * query.limit < totalItems)
  {
    PaginatedResponse(data, NewPaginationMeta(|data|, totalItems, query))
  }

  /**
    For a positive page size the page count is the least number of pages that
    holds every item: one page fewer would not.
  */
  lemma {:induction false} TotalPagesIsLeast(totalItems: nat, limit: int, pages: int)
    requires limit > 0 && pages >= 0 && pages * limit >= totalItems
    ensures TotalPages(totalItems, limit).n <= pages
  {
    var n := TotalPages(totalItems, limit).n;
    if totalItems > 0 && pages < n {
      MulMonotone(pages, n - 1, limit);
      assert false;
    }
  }
}
