/** The mice controller: the mouse list, one mouse, and one mouse's buttons. */
module MiceController {

  import opened Php
  import opened Errors
  import opened Sql
  import opened FilterSteps
  import opened Paging
  import MiceModel
  import ButtonsModel

  /** handleGetMice: a Pagination error, or what `getMice` makes of the whole
      query map, page and limit included. */
  function MiceResponse(f: Filters, v: Validators): Result<Query>
  {
    if BadPaging(f) then Err(Pagination) else MiceModel.Mice(f, v)
  }

  /** handleGetButtonMouseById: the mouse must exist before page and limit
      are looked at, and only then does the buttons model run. */
  function ButtonsOfMouseResponse(mouseId: int, f: Filters, v: Validators, fetch: Fetch): Result<Query>
  {
    if fetch(MiceModel.MouseById(mouseId)).None? then Err(InvalidId)
    else if BadPaging(f) then Err(Pagination)
    else ButtonsModel.Buttons(mouseId, f, v)
  }

  /** The mouse list fails with Pagination exactly when page or limit is
      bad. A page or limit that passes that check still reaches `getMice`,
      whose allow-list refuses it. */
  lemma MiceResponseOutcome(f: Filters, v: Validators)
    ensures MiceResponse(f, v) == Err(Pagination) <==> BadPaging(f)
    ensures ("page" in f || "limit" in f) && !BadPaging(f) ==> MiceResponse(f, v) == Err(InvalidParameter)
  {
    SpecFilterErrorsOnly(MiceModel.MiceFilters, MiceModel.MiceSteps, f, v, Query([MiceModel.MiceBase], map[]));
    if ("page" in f || "limit" in f) && !BadPaging(f) {
      MiceModel.MiceUnknownKey(f, v);
    }
  }

  /** An unknown mouse is a 404 whatever page and limit hold; a known one
      with a bad page or limit is a Pagination error; a known one with a page
      or limit that passes is refused by the buttons allow-list. */
  lemma ButtonsOfMouseOutcome(mouseId: int, f: Filters, v: Validators, fetch: Fetch)
    ensures ButtonsOfMouseResponse(mouseId, f, v, fetch) == Err(InvalidId)
        <==> fetch(MiceModel.MouseById(mouseId)).None?
    ensures ButtonsOfMouseResponse(mouseId, f, v, fetch) == Err(Pagination)
        <==> fetch(MiceModel.MouseById(mouseId)).Some? && BadPaging(f)
    ensures fetch(MiceModel.MouseById(mouseId)).Some? && !BadPaging(f) && ("page" in f || "limit" in f)
        ==> ButtonsOfMouseResponse(mouseId, f, v, fetch) == Err(InvalidParameter)
  {
    SpecFilterErrorsOnly(ButtonsModel.ButtonsFilters, ButtonsModel.ButtonsSteps, f, v, ButtonsModel.ButtonsBase(mouseId));
    if "page" in f || "limit" in f {
      ButtonsModel.ButtonsUnknownKey(mouseId, f, v);
    }
  }

  /** MiceController, with the pagination state of the two models it holds. */
  class Controller {
    const micePaging: Pager
    const buttonsPaging: Pager

    constructor(micePaging: Pager, buttonsPaging: Pager)
      ensures this.micePaging == micePaging && this.buttonsPaging == buttonsPaging
    {
      this.micePaging := micePaging;
      this.buttonsPaging := buttonsPaging;
    }

    /** handleGetMice: the query handed to `paginate`, or the exception
        thrown. The options are set only once page and limit have passed. */
    method HandleGetMice(filters: Filters, v: Validators) returns (r: Result<Query>)
      modifies micePaging
      ensures r == MiceResponse(filters, v)
      ensures BadPaging(filters) ==> unchanged(micePaging)
      ensures !BadPaging(filters)
           ==> (micePaging.currentPage == CurrentPage(filters)
                && micePaging.recordsPerPage == RecordsPerPage(filters))
    {
      var page := CurrentPage(filters);
      var limit := RecordsPerPage(filters);
      if !IsNumeric(page) || !IsNumeric(limit) {
        return Err(Pagination);
      }
      micePaging.SetPaginationOptions(page, limit);
      r := MiceModel.GetMice(filters, v);
    }

    /** handleGetMouseById: the mouse's row, or the 404. */
    method HandleGetMouseById(mouseId: int, fetch: Fetch) returns (r: Result<Row>)
      ensures r == FoundOr404(fetch(MiceModel.MouseById(mouseId)))
    {
      var mouse := fetch(MiceModel.MouseById(mouseId));
      if mouse.None? {
        return Err(InvalidId);
      }
      return Ok(mouse.value);
    }

    /** handleGetButtonMouseById: the buttons query handed to `paginate`, or
        the exception thrown. */
    method HandleGetButtonMouseById(mouseId: int, filters: Filters, v: Validators, fetch: Fetch)
      returns (r: Result<Query>)
      modifies buttonsPaging
      ensures r == ButtonsOfMouseResponse(mouseId, filters, v, fetch)
      ensures fetch(MiceModel.MouseById(mouseId)).None? || BadPaging(filters) ==> unchanged(buttonsPaging)
      ensures fetch(MiceModel.MouseById(mouseId)).Some? && !BadPaging(filters)
           ==> (buttonsPaging.currentPage == CurrentPage(filters)
                && buttonsPaging.recordsPerPage == RecordsPerPage(filters))
    {
      var mouse := fetch(MiceModel.MouseById(mouseId));
      if mouse.None? {
        return Err(InvalidId);
      }
      var page := CurrentPage(filters);
      var limit := RecordsPerPage(filters);
      if !IsNumeric(page) || !IsNumeric(limit) {
        return Err(Pagination);
      }
      buttonsPaging.SetPaginationOptions(page, limit);
      r := ButtonsModel.FindButtonsByMouseId(mouseId, filters, v);
    }
  }
}
