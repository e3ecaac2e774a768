/** The layouts controller: the layout list, one layout, and one layout's
    keyboards and keycap sets. */
module LayoutsController {

  import opened Php
  import opened Errors
  import opened Sql
  import opened FilterSteps
  import opened Paging
  import LayoutsModel
  import KeyboardsModel
  import KeycapsModel

  /** handleGetLayouts: a Pagination error, or what `getLayouts` makes of the
      whole query map, page and limit included. */
  function LayoutsResponse(f: Filters): Result<Query>
  {
    if BadPaging(f) then Err(Pagination) else LayoutsModel.GetLayouts(f)
  }

  /** handleGetKeyboardLayoutById: the layout must exist before page and
      limit are looked at, and only then does `findKeyboardByLayoutId` run. */
  function KeyboardsOfLayoutResponse(layoutId: int, f: Filters, v: Validators, fetch: Fetch): Result<Query>
  {
    if fetch(LayoutsModel.LayoutById(layoutId)).None? then Err(InvalidId)
    else if BadPaging(f) then Err(Pagination)
    else KeyboardsModel.KeyboardsByLayout(layoutId, f, v)
  }

  /** handleGetKeycapSetLayoutById: the same order, then `findKeycapSetByLayoutId`. */
  function KeycapsOfLayoutResponse(layoutId: int, f: Filters, v: Validators, fetch: Fetch): Result<Query>
  {
    if fetch(LayoutsModel.LayoutById(layoutId)).None? then Err(InvalidId)
    else if BadPaging(f) then Err(Pagination)
    else KeycapsModel.Keycaps(layoutId, f, v)
  }

  /** The layout list answers only a request with no query parameters at
      all: a bad page or limit is a Pagination error, and any other key,
      a good page or limit included, is an InvalidParameter. */
  lemma LayoutsResponseOutcome(f: Filters)
    ensures LayoutsResponse(f) == Err(Pagination) <==> BadPaging(f)
    ensures !BadPaging(f) && f.Keys != {} ==> LayoutsResponse(f) == Err(InvalidParameter)
    ensures LayoutsResponse(f).Ok? <==> f.Keys == {}
  {
    if f.Keys == {} {
      NoParametersFirstPage(f);
    }
  }

  /** An unknown layout is a 404 whatever page and limit hold; a known one
      with a bad page or limit is a Pagination error; a known one with a page
      or limit that passes is refused by the keyboards-by-layout allow-list. */
  lemma KeyboardsOfLayoutOutcome(layoutId: int, f: Filters, v: Validators, fetch: Fetch)
    ensures KeyboardsOfLayoutResponse(layoutId, f, v, fetch) == Err(InvalidId)
        <==> fetch(LayoutsModel.LayoutById(layoutId)).None?
    ensures KeyboardsOfLayoutResponse(layoutId, f, v, fetch) == Err(Pagination)
        <==> fetch(LayoutsModel.LayoutById(layoutId)).Some? && BadPaging(f)
    ensures fetch(LayoutsModel.LayoutById(layoutId)).Some? && !BadPaging(f) && ("page" in f || "limit" in f)
        ==> KeyboardsOfLayoutResponse(layoutId, f, v, fetch) == Err(InvalidParameter)
  {
    SpecFilterErrorsOnly(KeyboardsModel.ByLayoutFilters, KeyboardsModel.ByLayoutSteps, f, v,
                         Query([KeyboardsModel.ByLayoutBase], map["layout_id" := Int(layoutId)]));
    if "page" in f || "limit" in f {
      KeyboardsModel.ByLayoutUnknownKey(layoutId, f, v);
    }
  }

  /** An unknown layout is a 404 whatever page and limit hold; a known one
      with a bad page or limit is a Pagination error; otherwise it is the
      keycap-set query, page and limit left out. */
  lemma KeycapsOfLayoutOutcome(layoutId: int, f: Filters, v: Validators, fetch: Fetch)
    ensures KeycapsOfLayoutResponse(layoutId, f, v, fetch) == Err(InvalidId)
        <==> fetch(LayoutsModel.LayoutById(layoutId)).None?
    ensures KeycapsOfLayoutResponse(layoutId, f, v, fetch) == Err(Pagination)
        <==> fetch(LayoutsModel.LayoutById(layoutId)).Some? && BadPaging(f)
    ensures fetch(LayoutsModel.LayoutById(layoutId)).Some? && !BadPaging(f)
        ==> KeycapsOfLayoutResponse(layoutId, f, v, fetch) == KeycapsModel.Keycaps(layoutId, f - {"page", "limit"}, v)
  {
    KeycapsWithoutPaging(layoutId, f, v);
    KeycapsFilterErrorsOnly(layoutId, f, v);
  }

  lemma KeycapsWithoutPaging(layoutId: int, f: Filters, v: Validators)
    ensures KeycapsModel.Keycaps(layoutId, f, v) == KeycapsModel.Keycaps(layoutId, f - {"page", "limit"}, v)
  {
    KeycapsModel.KeycapsIgnoresPaging(layoutId, f, "page", v);
    KeycapsModel.KeycapsIgnoresPaging(layoutId, f - {"page"}, "limit", v);
    WithoutPaging(f);
  }

  lemma KeycapsFilterErrorsOnly(layoutId: int, f: Filters, v: Validators)
    ensures KeycapsModel.Keycaps(layoutId, f, v) != Err(InvalidId) && KeycapsModel.Keycaps(layoutId, f, v) != Err(Pagination)
  {
    SpecFilterErrorsOnly(KeycapsModel.KeycapsFilters, KeycapsModel.KeycapsSteps, f, v,
                         KeycapsModel.KeycapsStart(layoutId));
  }

  /** LayoutsController, with the pagination state of the three models it holds. */
  class Controller {
    const layoutsPaging: Pager
    const keyboardsPaging: Pager
    const keycapsPaging: Pager

    constructor(layoutsPaging: Pager, keyboardsPaging: Pager, keycapsPaging: Pager)
      ensures this.layoutsPaging == layoutsPaging && this.keyboardsPaging == keyboardsPaging
      ensures this.keycapsPaging == keycapsPaging
    {
      this.layoutsPaging := layoutsPaging;
      this.keyboardsPaging := keyboardsPaging;
      this.keycapsPaging := keycapsPaging;
    }

    /** handleGetLayouts: the query handed to `paginate`, or the exception
        thrown. The options are set only once page and limit have passed. */
    method HandleGetLayouts(filters: Filters) returns (r: Result<Query>)
      modifies layoutsPaging
      ensures r == LayoutsResponse(filters)
      ensures BadPaging(filters) ==> unchanged(layoutsPaging)
      ensures !BadPaging(filters)
           ==> (layoutsPaging.currentPage == CurrentPage(filters)
                && layoutsPaging.recordsPerPage == RecordsPerPage(filters))
    {
      var page := CurrentPage(filters);
      var limit := RecordsPerPage(filters);
      if !IsNumeric(page) || !IsNumeric(limit) {
        return Err(Pagination);
      }
      layoutsPaging.SetPaginationOptions(page, limit);
      r := LayoutsModel.GetLayouts(filters);
    }

    /** handleGetLayoutsById: the layout's row, or the 404. */
    method HandleGetLayoutsById(layoutId: int, fetch: Fetch) returns (r: Result<Row>)
      ensures r == FoundOr404(fetch(LayoutsModel.LayoutById(layoutId)))
    {
      var layout := fetch(LayoutsModel.LayoutById(layoutId));
      if layout.None? {
        return Err(InvalidId);
      }
      return Ok(layout.value);
    }

    /** handleGetKeyboardLayoutById: the keyboards query handed to
        `paginate`, or the exception thrown. */
    method HandleGetKeyboardLayoutById(layoutId: int, filters: Filters, v: Validators, fetch: Fetch)
      returns (r: Result<Query>)
      modifies keyboardsPaging
      ensures r == KeyboardsOfLayoutResponse(layoutId, filters, v, fetch)
      ensures fetch(LayoutsModel.LayoutById(layoutId)).None? || BadPaging(filters) ==> unchanged(keyboardsPaging)
      ensures fetch(LayoutsModel.LayoutById(layoutId)).Some? && !BadPaging(filters)
           ==> (keyboardsPaging.currentPage == CurrentPage(filters)
                && keyboardsPaging.recordsPerPage == RecordsPerPage(filters))
    {
      var layout := fetch(LayoutsModel.LayoutById(layoutId));
      if layout.None? {
        return Err(InvalidId);
      }
      var page := CurrentPage(filters);
      var limit := RecordsPerPage(filters);
      if !IsNumeric(page) || !IsNumeric(limit) {
        return Err(Pagination);
      }
      keyboardsPaging.SetPaginationOptions(page, limit);
      r := KeyboardsModel.FindKeyboardByLayoutId(layoutId, filters, v);
    }

    /** handleGetKeycapSetLayoutById: the keycap-set query handed to
        `paginate`, or the exception thrown. */
    method HandleGetKeycapSetLayoutById(layoutId: int, filters: Filters, v: Validators, fetch: Fetch)
      returns (r: Result<Query>)
      modifies keycapsPaging
      ensures r == KeycapsOfLayoutResponse(layoutId, filters, v, fetch)
      ensures fetch(LayoutsModel.LayoutById(layoutId)).None? || BadPaging(filters) ==> unchanged(keycapsPaging)
      ensures fetch(LayoutsModel.LayoutById(layoutId)).Some? && !BadPaging(filters)
           ==> (keycapsPaging.currentPage == CurrentPage(filters)
                && keycapsPaging.recordsPerPage == RecordsPerPage(filters))
    {
      var layout := fetch(LayoutsModel.LayoutById(layoutId));
      if layout.None? {
        return Err(InvalidId);
      }
      var page := CurrentPage(filters);
      var limit := RecordsPerPage(filters);
      if !IsNumeric(page) || !IsNumeric(limit) {
        return Err(Pagination);
      }
      keycapsPaging.SetPaginationOptions(page, limit);
      r := KeycapsModel.FindKeycapSetByLayoutId(layoutId, filters, v);
    }
  }
}
