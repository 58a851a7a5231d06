/**
 * The list pipeline of the mock list endpoints: filter, fix `count`, then
 * sort and paginate. Sorting and pagination are helpers outside this model and
 * are passed in as functions.
 */
module Listing {
  import opened Common
  import opened Query

  datatype SortDir = Asc | Desc

  /** A list request; every field is optional. */
  datatype Request = Request(
    filters: Option<Filters>,
    page: Option<int>,
    rowsPerPage: Option<int>,
    sortBy: Option<string>,
    sortDir: Option<SortDir>)

  /** The response: the page of items and the number of items that matched. */
  datatype Response<T> = Response(data: seq<T>, count: nat)

  /** The sort stage (only when both `sortBy` and `sortDir` are given), then the pagination stage (only when both `page` and `rowsPerPage` are). */
  function Arrange<T>(items: seq<T>, request: Request,
                      applySort: (seq<T>, string, SortDir) -> seq<T>,
                      applyPagination: (seq<T>, int, int) -> seq<T>): seq<T>
  {
    var sorted :=
      if request.sortBy.Some? && request.sortDir.Some?
      then applySort(items, request.sortBy.value, request.sortDir.value)
      else items;
    if request.page.Some? && request.rowsPerPage.Some?
    then applyPagination(sorted, request.page.value, request.rowsPerPage.value)
    else sorted
  }

  /**
   * The filter callback: an item is kept unless the query is in force and no
   * searchable field raised `queryMatched`.
   */
  method KeepItem<T>(item: T, fields: T -> seq<string>, filters: Option<Filters>) returns (keep: bool)
    ensures keep == Passes(fields(item), filters)
  {
    keep := true;
    if QueryActive(filters) {
      var queryMatched := MatchAny(fields(item), filters.value.query.value);
      if !queryMatched {
        keep := false;
      }
    }
  }

  /** `data.filter(...)` with that callback. */
  method FilterStage<T(!new)>(data: seq<T>, fields: T -> seq<string>, filters: Option<Filters>)
    returns (kept: seq<T>)
    ensures kept == Matching(data, fields, filters)
  {
    kept := [];
    var i := 0;
    while i < |data|
      invariant 0 <= i <= |data|
      invariant kept == Matching(data[..i], fields, filters)
    {
      var keep := KeepItem(data[i], fields, filters);
      MatchingStep(data, i, fields, filters);
      if keep {
        kept := kept + [data[i]];
      }
      i := i + 1;
    }
    assert data[..i] == data;
  }

  /**
   * Runs the pipeline over a private copy of `source`: `data` and `count` start
   * as the copy and its length; when `filters` is given, `data` is replaced by
   * the items the filter callback keeps and `count` by their number; then the
   * sort and pagination stages rewrite `data` only.
   */
  method GetPage<T(!new)>(source: seq<T>, fields: T -> seq<string>, request: Request,
                          applySort: (seq<T>, string, SortDir) -> seq<T>,
                          applyPagination: (seq<T>, int, int) -> seq<T>)
    returns (response: Response<T>)
    ensures response.count == |Matching(source, fields, request.filters)|
    ensures request.filters.None? ==> response.count == |source|
    ensures response.data == Arrange(Matching(source, fields, request.filters), request, applySort, applyPagination)
  {
    var data := source;
    var count := |data|;

    if request.filters.Some? {
      data := FilterStage(data, fields, request.filters);
      count := |data|;
    }

    if request.sortBy.Some? && request.sortDir.Some? {
      data := applySort(data, request.sortBy.value, request.sortDir.value);
    }

    if request.page.Some? && request.rowsPerPage.Some? {
      data := applyPagination(data, request.page.value, request.rowsPerPage.value);
    }

    response := Response(data, count);
  }
}
