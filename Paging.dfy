/** What every controller does before it calls a model: default and check
    the page and limit query parameters, hand them to the model with
    `setPaginationOptions`, and turn a failed id lookup into a 404. */
module Paging {

  import opened Php
  import opened Errors
  import opened Sql

  /** `!empty($filters['page']) ? $filters['page'] : 1`: a missing, empty or
      "0" page is the first page. */
  function CurrentPage(f: Filters): string
  {
    if Present(f, "page") then f["page"] else "1"
  }

  /** `!empty($filters['limit']) ? $filters['limit'] : 10`. */
  function RecordsPerPage(f: Filters): string
  {
    if Present(f, "limit") then f["limit"] else "10"
  }

  /** The guard of the HttpPaginationException: either value is not numeric. */
  predicate BadPaging(f: Filters)
  {
    !IsNumeric(CurrentPage(f)) || !IsNumeric(RecordsPerPage(f))
  }

  /** The defaults 1 and 10 pass `is_numeric`. */
  lemma DefaultsAreNumeric(page: string, limit: string)
    requires page == "1" && limit == "10"
    ensures IsNumeric(page) && IsNumeric(limit)
  {
    assert IsDigit(limit[0]) && IsDigit(limit[1]);
    DigitStringIsNumeric(page);
    DigitStringIsNumeric(limit);
  }

  /** The defaults are numeric, so only a page or limit that is supplied,
      non-empty and not numeric is refused; a page of "0" is read as page 1. */
  lemma BadPagingExactly(f: Filters)
    ensures BadPaging(f)
        <==> (Present(f, "page") && !IsNumeric(f["page"])) || (Present(f, "limit") && !IsNumeric(f["limit"]))
    ensures !Present(f, "page") ==> CurrentPage(f) == "1"
    ensures !Present(f, "limit") ==> RecordsPerPage(f) == "10"
  {
    DefaultsAreNumeric("1", "10");
  }

  /** No query parameters at all: page 1 of 10 records, no error. */
  lemma NoParametersFirstPage(f: Filters)
    requires f.Keys == {}
    ensures CurrentPage(f) == "1" && RecordsPerPage(f) == "10" && !BadPaging(f)
  {
    assert "page" !in f && "limit" !in f;
    DefaultsAreNumeric(CurrentPage(f), RecordsPerPage(f));
  }

  /** Dropping page, then limit, is dropping both. */
  lemma WithoutPaging(f: Filters)
    ensures f - {"page"} - {"limit"} == f - {"page", "limit"}
  {
  }

  /** A model's pagination options: the page and page size `paginate` will
      use. The base model that holds them is not part of this model; only
      what `setPaginationOptions` is given is recorded. */
  class Pager {
    var currentPage: string
    var recordsPerPage: string

    constructor(page: string, limit: string)
      ensures currentPage == page && recordsPerPage == limit
    {
      currentPage := page;
      recordsPerPage := limit;
    }

    /** setPaginationOptions. */
    method SetPaginationOptions(page: string, limit: string)
      modifies this
      ensures currentPage == page && recordsPerPage == limit
    {
      currentPage := page;
      recordsPerPage := limit;
    }
  }

  /** A row as `fetchSingle` returns it. */
  type Row = map<string, Value>

  /** `fetchSingle`: the row a by-id query selects, or None where PHP has
      false. The database is a parameter of the model. */
  type Fetch = Query -> Option<Row>

  /** `if ($row === false) throw new HttpInvalidIdException(...)`: a missing
      row is the 404, any row is the answer. */
  function FoundOr404(row: Option<Row>): (r: Result<Row>)
    ensures r.Err? <==> row.None?
    ensures r.Err? ==> r.error == InvalidId && Status(r.error) == Some(404)
    ensures r.Ok? ==> r.value == row.value
  {
    if row.None? then Err(InvalidId) else Ok(row.value)
  }
}
