/** The vendors controller: the vendor list, one vendor, and one vendor's switches. */
module VendorsController {

  import opened Php
  import opened Errors
  import opened Sql
  import opened FilterSteps
  import opened Paging
  import VendorsModel
  import SwitchesModel

  /** handleGetVendors: a Pagination error, or what `getVendors` makes of the
      whole query map, page and limit included. */
  function VendorsResponse(f: Filters, v: Validators): Result<Query>
  {
    if BadPaging(f) then Err(Pagination) else VendorsModel.Vendors(f, v)
  }

  /** handleGetSwitchVendorById: the vendor must exist before page and limit
      are looked at, and only then does the switches model run. */
  function SwitchesOfVendorResponse(vendorId: int, f: Filters, v: Validators, fetch: Fetch): Result<Query>
  {
    if fetch(VendorsModel.VendorById(vendorId)).None? then Err(InvalidId)
    else if BadPaging(f) then Err(Pagination)
    else SwitchesModel.Switches(vendorId, f, v)
  }

  /** The vendor list fails with Pagination exactly when page or limit is
      bad; otherwise page and limit, which the vendor allow-list accepts,
      play no part in the query. */
  lemma VendorsResponseOutcome(f: Filters, v: Validators)
    ensures VendorsResponse(f, v) == Err(Pagination) <==> BadPaging(f)
    ensures !BadPaging(f) ==> VendorsResponse(f, v) == VendorsModel.Vendors(f - {"page", "limit"}, v)
  {
    VendorsWithoutPaging(f, v);
    VendorsFilterErrorsOnly(f, v);
  }

  lemma VendorsWithoutPaging(f: Filters, v: Validators)
    ensures VendorsModel.Vendors(f, v) == VendorsModel.Vendors(f - {"page", "limit"}, v)
  {
    VendorsModel.VendorsIgnoresPaging(f, "page", v);
    VendorsModel.VendorsIgnoresPaging(f - {"page"}, "limit", v);
    WithoutPaging(f);
  }

  lemma VendorsFilterErrorsOnly(f: Filters, v: Validators)
    ensures VendorsModel.Vendors(f, v) != Err(InvalidId) && VendorsModel.Vendors(f, v) != Err(Pagination)
  {
    SpecFilterErrorsOnly(VendorsModel.VendorsFilters, VendorsModel.VendorsSteps, f, v, Query([VendorsModel.VendorsBase], map[]));
  }

  /** An unknown vendor is a 404 whatever page and limit hold; a known one
      with a bad page or limit is a Pagination error; otherwise it is the
      switches query, page and limit left out. */
  lemma SwitchesOfVendorOutcome(vendorId: int, f: Filters, v: Validators, fetch: Fetch)
    ensures SwitchesOfVendorResponse(vendorId, f, v, fetch) == Err(InvalidId)
        <==> fetch(VendorsModel.VendorById(vendorId)).None?
    ensures SwitchesOfVendorResponse(vendorId, f, v, fetch) == Err(Pagination)
        <==> fetch(VendorsModel.VendorById(vendorId)).Some? && BadPaging(f)
    ensures fetch(VendorsModel.VendorById(vendorId)).Some? && !BadPaging(f)
        ==> SwitchesOfVendorResponse(vendorId, f, v, fetch) == SwitchesModel.Switches(vendorId, f - {"page", "limit"}, v)
  {
    SwitchesWithoutPaging(vendorId, f, v);
    SwitchesFilterErrorsOnly(vendorId, f, v);
  }

  lemma SwitchesWithoutPaging(vendorId: int, f: Filters, v: Validators)
    ensures SwitchesModel.Switches(vendorId, f, v) == SwitchesModel.Switches(vendorId, f - {"page", "limit"}, v)
  {
    SwitchesModel.SwitchesIgnoresPaging(vendorId, f, "page", v);
    SwitchesModel.SwitchesIgnoresPaging(vendorId, f - {"page"}, "limit", v);
    WithoutPaging(f);
  }

  lemma SwitchesFilterErrorsOnly(vendorId: int, f: Filters, v: Validators)
    ensures SwitchesModel.Switches(vendorId, f, v) != Err(InvalidId) && SwitchesModel.Switches(vendorId, f, v) != Err(Pagination)
  {
    SpecFilterErrorsOnly(SwitchesModel.SwitchesFilters, SwitchesModel.SwitchesSteps, f, v,
                         SwitchesModel.SwitchesBase(vendorId));
  }

  /** VendorsController, with the pagination state of the two models it holds. */
  class Controller {
    const vendorsPaging: Pager
    const switchesPaging: Pager

    constructor(vendorsPaging: Pager, switchesPaging: Pager)
      ensures this.vendorsPaging == vendorsPaging && this.switchesPaging == switchesPaging
    {
      this.vendorsPaging := vendorsPaging;
      this.switchesPaging := switchesPaging;
    }

    /** handleGetVendors: the query handed to `paginate`, or the exception thrown.
        The options are set only once page and limit have passed. */
    method HandleGetVendors(filters: Filters, v: Validators) returns (r: Result<Query>)
      modifies vendorsPaging
      ensures r == VendorsResponse(filters, v)
      ensures BadPaging(filters) ==> unchanged(vendorsPaging)
      ensures !BadPaging(filters)
           ==> (vendorsPaging.currentPage == CurrentPage(filters)
                && vendorsPaging.recordsPerPage == RecordsPerPage(filters))
    {
      var page := CurrentPage(filters);
      var limit := RecordsPerPage(filters);
      if !IsNumeric(page) || !IsNumeric(limit) {
        return Err(Pagination);
      }
      vendorsPaging.SetPaginationOptions(page, limit);
      r := VendorsModel.GetVendors(filters, v);
    }

    /** handleGetVendorById: the vendor's row, or the 404. */
    method HandleGetVendorById(vendorId: int, fetch: Fetch) returns (r: Result<Row>)
      ensures r == FoundOr404(fetch(VendorsModel.VendorById(vendorId)))
    {
      var vendor := fetch(VendorsModel.VendorById(vendorId));
      if vendor.None? {
        return Err(InvalidId);
      }
      return Ok(vendor.value);
    }

    /** handleGetSwitchVendorById: the switches query handed to `paginate`,
        or the exception thrown. */
    method HandleGetSwitchVendorById(vendorId: int, filters: Filters, v: Validators, fetch: Fetch)
      returns (r: Result<Query>)
      modifies switchesPaging
      ensures r == SwitchesOfVendorResponse(vendorId, filters, v, fetch)
      ensures fetch(VendorsModel.VendorById(vendorId)).None? || BadPaging(filters) ==> unchanged(switchesPaging)
      ensures fetch(VendorsModel.VendorById(vendorId)).Some? && !BadPaging(filters)
           ==> (switchesPaging.currentPage == CurrentPage(filters)
                && switchesPaging.recordsPerPage == RecordsPerPage(filters))
    {
      var vendor := fetch(VendorsModel.VendorById(vendorId));
      if vendor.None? {
        return Err(InvalidId);
      }
      var page := CurrentPage(filters);
      var limit := RecordsPerPage(filters);
      if !IsNumeric(page) || !IsNumeric(limit) {
        return Err(Pagination);
      }
      switchesPaging.SetPaginationOptions(page, limit);
      r := SwitchesModel.FindSwitchesByVendorId(vendorId, filters, v);
    }
  }
}
