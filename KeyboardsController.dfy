/** The keyboards controller: the keyboard list and one keyboard. */
module KeyboardsController {

  import opened Php
  import opened Errors
  import opened Sql
  import opened FilterSteps
  import opened Paging
  import KeyboardsModel

  /** handleGetKeyboards: a Pagination error, or what `getKeyboards` makes of
      the whole query map, page and limit included. */
  function KeyboardsResponse(f: Filters, v: Validators): Result<Query>
  {
    if BadPaging(f) then Err(Pagination) else KeyboardsModel.Keyboards(f, v)
  }

  /** The keyboard list fails with Pagination exactly when page or limit is
      bad. A page or limit that passes that check still reaches
      `getKeyboards`, whose allow-list refuses it: any request naming page or
      limit fails. */
  lemma KeyboardsResponseOutcome(f: Filters, v: Validators)
    ensures KeyboardsResponse(f, v) == Err(Pagination) <==> BadPaging(f)
    ensures ("page" in f || "limit" in f) && !BadPaging(f) ==> KeyboardsResponse(f, v) == Err(InvalidParameter)
  {
    SpecFilterErrorsOnly(KeyboardsModel.KeyboardsFilters, KeyboardsModel.KeyboardsSteps, f, v, 
                         Query([KeyboardsModel.KeyboardsBase], map[]));
    if ("page" in f || "limit" in f) && !BadPaging(f) {
      KeyboardsModel.KeyboardsUnknownKey(f, v);
    }
  }

  /** KeyboardsController, with the pagination state of its model. */
  class Controller {
    const keyboardsPaging: Pager

    constructor(keyboardsPaging: Pager)
      ensures this.keyboardsPaging == keyboardsPaging
    {
      this.keyboardsPaging := keyboardsPaging;
    }

    /** handleGetKeyboards: the query handed to `paginate`, or the exception
        thrown. The options are set only once page and limit have passed. */
    method HandleGetKeyboards(filters: Filters, v: Validators) returns (r: Result<Query>)
      modifies keyboardsPaging
      ensures r == KeyboardsResponse(filters, v)
      ensures BadPaging(filters) ==> unchanged(keyboardsPaging)
      ensures !BadPaging(filters)
           ==> (keyboardsPaging.currentPage == CurrentPage(filters)
                && keyboardsPaging.recordsPerPage == RecordsPerPage(filters))
    {
      var page := CurrentPage(filters);
      var limit := RecordsPerPage(filters);
      if !IsNumeric(page) || !IsNumeric(limit) {
        return Err(Pagination);
      }
      keyboardsPaging.SetPaginationOptions(page, limit);
      r := KeyboardsModel.GetKeyboards(filters, v);
    }

    /** handleGetKeyboardById: the keyboard's row, or the 404. */
    method HandleGetKeyboardById(keyboardId: int, fetch: Fetch) returns (r: Result<Row>)
      ensures r == FoundOr404(fetch(KeyboardsModel.KeyboardById(keyboardId)))
    {
      var keyboard := fetch(KeyboardsModel.KeyboardById(keyboardId));
      if keyboard.None? {
        return Err(InvalidId);
      }
      return Ok(keyboard.value);
    }
  }
}
