/** The vendors model: `getVendors` and `findVendorById`. */
module VendorsModel {

  import opened Php
  import opened Errors
  import opened Sql
  import opened FilterSteps
  import opened Blocks
  import opened Tables

  /** The columns a vendor list may be ordered by. */
  const OrderColumns: seq<string> := ["vendor_id", "name", "country", "founded_year", "website", "headquarters"]

  // ---------------------------------------------------------------------
  // getVendors

  /** The accepted query-string keys: here page, limit and order_by are among them. */
  const VendorsFilters: set<string> :=
    {"name", "country", "founded_after", "founded_before", "keyboards_count", "lower_price_limit",
     "upper_price_limit", "page", "limit", "order_by"}

  const VendorsBase: Fragment :=
    [Chunk(" SELECT DISTINCT vendors.* FROM vendors LEFT JOIN keyboards ON keyboards.vendor_id = vendors.vendor_id WHERE 1 ")]
  const NameFrag: Fragment := Like("vendors.name", "vendors_name")
  const CountryFrag: Fragment := Like("vendors.country", "vendors_country")
  const FoundedAfterFrag: Fragment := Compare("vendors.founded_year", ">", "vendors_founded_after")
  const FoundedBeforeFrag: Fragment := Compare("vendors.founded_year", "<", "vendors_founded_before")
  /** The one fragment that ends at its placeholder, with no space after it. */
  const CountFrag: Fragment := Trailing(" GROUP BY vendors.vendor_id HAVING COUNT(keyboards.keyboard_id) >= ", "count")
  const PriceFrag: Fragment :=
    TwoPlaced(" AND keyboards.price BETWEEN ", "lower_limit", " AND ", "upper_limit", " GROUP BY vendors.vendor_id ")
  /** The column name is bound as a value, not spliced into the text. */
  const OrderByFrag: Fragment := Placed(" ORDER BY ", "order_by_type", " ASC ")

  const NameStep := Plain("name", NameFrag, "vendors_name")
  const CountryStep := Plain("country", CountryFrag, "vendors_country")
  const FoundedAfterStep := Year("founded_after", "founded_after", FoundedAfterFrag, "vendors_founded_after")
  /** founded_before is guarded by its own key but validates founded_after's value. */
  const FoundedBeforeStep := Year("founded_before", "founded_after", FoundedBeforeFrag, "vendors_founded_before")
  const CountStep := Numeric("keyboards_count", CountFrag, "count")
  const PriceStep :=
    Range("lower_price_limit", "upper_price_limit", NumericBounds, PriceFrag, "lower_limit", "upper_limit")
  const OrderByStep := OneOf("order_by", OrderColumns, OrderByFrag, "order_by_type")

  const VendorsSteps: seq<Step> :=
    [NameStep, CountryStep, FoundedAfterStep, FoundedBeforeStep, CountStep, PriceStep, OrderByStep]

  /** What `getVendors` does, as a table. */
  function Vendors(f: Filters, v: Validators): Result<Query>
  {
    Spec(VendorsFilters, VendorsSteps, f, v, Query([VendorsBase], map[]))
  }

  /** The table composed block by block, as the method runs it. */
  lemma VendorsUnrolled(f: Filters, v: Validators, q: Query)
    ensures Run(VendorsSteps, f, v, q)
         == Then(OrderByStep, f, v, Then(PriceStep, f, v, Then(CountStep, f, v,
            Then(FoundedBeforeStep, f, v, Then(FoundedAfterStep, f, v, Then(CountryStep, f, v,
            Then(NameStep, f, v, Ok(q))))))))
  {
    RunIsThenAll(VendorsSteps, f, v, q);
    ThenAll7(VendorsSteps, NameStep, CountryStep, FoundedAfterStep, FoundedBeforeStep, CountStep,
             PriceStep, OrderByStep, f, v, Ok(q));
  }

  /** getVendors: the query handed to `paginate`, or the exception thrown. */
  method GetVendors(filters: Filters, v: Validators) returns (r: Result<Query>)
    ensures r == Vendors(filters, v)
  {
    if filters.Keys - VendorsFilters != {} {
      return Err(InvalidParameter);
    }
    var q := Query([VendorsBase], map[]);
    VendorsUnrolled(filters, v, q);
    q := PlainBlock(filters, "name", NameFrag, "vendors_name", q);
    q := PlainBlock(filters, "country", CountryFrag, "vendors_country", q);
    r := YearBlock(filters, v, "founded_after", "founded_after", FoundedAfterFrag, "vendors_founded_after", q);
    if r.Err? { return; }
    r := YearBlock(filters, v, "founded_before", "founded_after", FoundedBeforeFrag, "vendors_founded_before", r.value);
    if r.Err? { return; }
    r := NumericBlock(filters, "keyboards_count", CountFrag, "count", r.value);
    if r.Err? { return; }
    r := RangeBlock(filters, v, "lower_price_limit", "upper_price_limit", NumericBounds, PriceFrag,
                    "lower_limit", "upper_limit", r.value);
    if r.Err? { return; }
    r := OneOfBlock(filters, "order_by", OrderColumns, OrderByFrag, "order_by_type", r.value);
  }

  /** The checks of `getVendors` written out in source order: the exception
      of the first that fails, if any. Both year checks read founded_after. */
  function VendorsCheck(f: Filters, v: Validators): Option<ErrorKind>
  {
    if Present(f, "founded_after") && !v.year(Lookup(f, "founded_after")) then Some(InvalidParameterValue)
    else if Present(f, "founded_before") && !v.year(Lookup(f, "founded_after")) then Some(InvalidParameterValue)
    else if Present(f, "keyboards_count") && !IsNumeric(f["keyboards_count"]) then Some(InvalidParameterValue)
    else if Present(f, "lower_price_limit") != Present(f, "upper_price_limit") then Some(RangeFilter)
    else if Present(f, "lower_price_limit")
            && !(IsNumeric(f["lower_price_limit"]) && IsNumeric(f["upper_price_limit"]))
    then Some(InvalidParameterValue)
    else if UnknownColumn(f) then Some(InvalidParameterValue)
    else None
  }

  lemma PlainNeverThrows(f: Filters, v: Validators)
    ensures StepError(NameStep, f, v) == None && StepError(CountryStep, f, v) == None
  {
  }

  lemma FoundedAfterError(f: Filters, v: Validators)
    ensures StepError(FoundedAfterStep, f, v)
         == if Present(f, "founded_after") && !v.year(Lookup(f, "founded_after"))
            then Some(InvalidParameterValue) else None
  {
  }

  lemma FoundedBeforeError(f: Filters, v: Validators)
    ensures StepError(FoundedBeforeStep, f, v)
         == if Present(f, "founded_before") && !v.year(Lookup(f, "founded_after"))
            then Some(InvalidParameterValue) else None
  {
  }

  lemma CountError(f: Filters, v: Validators)
    ensures StepError(CountStep, f, v)
         == if Present(f, "keyboards_count") && !IsNumeric(f["keyboards_count"])
            then Some(InvalidParameterValue) else None
  {
  }

  lemma PriceError(f: Filters, v: Validators)
    ensures StepError(PriceStep, f, v)
         == if Present(f, "lower_price_limit") != Present(f, "upper_price_limit") then Some(RangeFilter)
            else if Present(f, "lower_price_limit")
                    && !(IsNumeric(f["lower_price_limit"]) && IsNumeric(f["upper_price_limit"]))
            then Some(InvalidParameterValue)
            else None
  {
  }

  lemma OrderByError(f: Filters, v: Validators)
    ensures StepError(OrderByStep, f, v)
         == if UnknownColumn(f) then Some(InvalidParameterValue) else None
  {
  }

  /** The table throws what the written-out checks say. */
  lemma VendorsFirstError(f: Filters, v: Validators)
    ensures FirstError(VendorsSteps, f, v) == VendorsCheck(f, v)
  {
    FirstError7(VendorsSteps, NameStep, CountryStep, FoundedAfterStep, FoundedBeforeStep, CountStep,
                PriceStep, OrderByStep, f, v);
    PlainNeverThrows(f, v);
    FoundedAfterError(f, v);
    FoundedBeforeError(f, v);
    CountError(f, v);
    PriceError(f, v);
    OrderByError(f, v);
  }

  /** order_by names a column outside the list (strict `in_array`). */
  predicate UnknownColumn(f: Filters)
  {
    Present(f, "order_by") && f["order_by"] !in OrderColumns
  }

  /** getVendors: InvalidParameter exactly for a key outside its ten names;
      else the first failing check; else the base query followed by the
      fragments of the present filters in table order, with their bindings. */
  lemma VendorsOutcome(f: Filters, v: Validators)
    ensures Vendors(f, v)
         == if !(f.Keys <= VendorsFilters) then Err(InvalidParameter)
            else if VendorsCheck(f, v).Some? then Err(VendorsCheck(f, v).value)
            else Ok(Query([VendorsBase] + Emitted(VendorsSteps, f), Bindings(VendorsSteps, f)))
    ensures Vendors(f, v) == Err(InvalidParameter) <==> !(f.Keys <= VendorsFilters)
  {
    SpecOutcome(VendorsFilters, VendorsSteps, f, v, Query([VendorsBase], map[]));
    VendorsFirstError(f, v);
    EmptyUnion(Bindings(VendorsSteps, f));
  }

  /** Whether founded_before passes depends on founded_after's value, never
      on its own: replacing its (non-empty) value changes no check. */
  lemma VendorsFoundedBeforeUnchecked(f: Filters, v: Validators, year: string)
    requires Present(f, "founded_before") && year != "" && year != "0"
    ensures VendorsCheck(f["founded_before" := year], v) == VendorsCheck(f, v)
  {
    var g := f["founded_before" := year];
    assert Present(g, "founded_before");
    assert forall k | k != "founded_before" :: Present(g, k) == Present(f, k) && Lookup(g, k) == Lookup(f, k);
  }

  /** founded_before without founded_after is checked against a missing
      value: it fails exactly when the validator refuses a missing year. */
  lemma VendorsFoundedBeforeAlone(f: Filters, v: Validators)
    requires f.Keys <= VendorsFilters && "founded_after" !in f && Present(f, "founded_before")
    ensures !v.year(None) ==> Vendors(f, v) == Err(InvalidParameterValue)
  {
    VendorsOutcome(f, v);
  }

  /** The two year filters never raise a RangeFilter: only the price pair does. */
  lemma VendorsRangeOnlyFromPrice(f: Filters, v: Validators)
    requires Vendors(f, v) == Err(RangeFilter)
    ensures Present(f, "lower_price_limit") != Present(f, "upper_price_limit")
  {
    VendorsOutcome(f, v);
  }

  /** page and limit pass the allow-list and no block reads them: either
      one, whatever its value, changes nothing. */
  lemma VendorsIgnoresPaging(f: Filters, key: string, v: Validators)
    requires key == "page" || key == "limit"
    ensures Vendors(f, v) == Vendors(f - {key}, v)
  {
    VendorsReads();
    SpecIgnoresUnread(VendorsFilters, VendorsSteps, f, key, v, Query([VendorsBase], map[]));
  }

  lemma VendorsReads()
    ensures "page" !in ReadBy(VendorsSteps) && "limit" !in ReadBy(VendorsSteps)
  {
    Gather7(VendorsSteps, NameStep, CountryStep, FoundedAfterStep, FoundedBeforeStep, CountStep,
            PriceStep, OrderByStep, Reads);
    FirstStepsSkipPaging();
    LastStepsSkipPaging();
  }

  lemma FirstStepsSkipPaging()
    ensures "page" !in Reads(NameStep) + Reads(CountryStep) + Reads(FoundedAfterStep) + Reads(FoundedBeforeStep)
    ensures "limit" !in Reads(NameStep) + Reads(CountryStep) + Reads(FoundedAfterStep) + Reads(FoundedBeforeStep)
  {
  }

  lemma LastStepsSkipPaging()
    ensures "page" !in Reads(CountStep) + Reads(PriceStep) + Reads(OrderByStep)
    ensures "limit" !in Reads(CountStep) + Reads(PriceStep) + Reads(OrderByStep)
  {
  }

  /** order_by is bound as the value of order_by_type. */
  lemma VendorsOrderBy(f: Filters, v: Validators)
    requires Vendors(f, v).Ok? && Present(f, "order_by")
    ensures "order_by_type" in Vendors(f, v).value.args
    ensures Vendors(f, v).value.args["order_by_type"] == Str(f["order_by"])
  {
    OrderByBinding(f);
    SpecBindingWins(VendorsFilters, VendorsSteps, f, v, Query([VendorsBase], map[]), 6, "order_by_type");
  }

  lemma OrderByBinding(f: Filters)
    requires Present(f, "order_by")
    ensures VendorsSteps[6] == OrderByStep && VendorsSteps[7..] == []
    ensures "order_by_type" in StepArgs(OrderByStep, f)
    ensures StepArgs(OrderByStep, f)["order_by_type"] == Str(f["order_by"])
  {
  }

  lemma VendorsConsistent()
    ensures forall i :: 0 <= i < |VendorsSteps| ==> Consistent(VendorsSteps[i])
  {
    VendorsStepsConsistent();
    Every7(VendorsSteps, NameStep, CountryStep, FoundedAfterStep, FoundedBeforeStep, CountStep,
           PriceStep, OrderByStep, Consistent);
  }

  lemma VendorsStepsConsistent()
    ensures Consistent(NameStep) && Consistent(CountryStep) && Consistent(FoundedAfterStep)
    ensures Consistent(FoundedBeforeStep) && Consistent(CountStep) && Consistent(PriceStep)
    ensures Consistent(OrderByStep)
  {
  }

  /** Every placeholder of the query is bound, and every binding is used. */
  lemma VendorsWellBound(f: Filters, v: Validators)
    ensures Vendors(f, v).Ok? ==> WellBound(Vendors(f, v).value)
  {
    var base := Query([VendorsBase], map[]);
    VendorsConsistent();
    assert WellBound(base) by {
      assert [VendorsBase][1..] == [];
    }
    SpecWellBound(VendorsFilters, VendorsSteps, f, v, base);
  }

  /** No filters: the base query, nothing bound. */
  lemma VendorsNoFilters(v: Validators)
    ensures Vendors(map[], v) == Ok(Query([VendorsBase], map[]))
  {
    SpecNoFilters(VendorsFilters, VendorsSteps, v, Query([VendorsBase], map[]));
  }

  /** A known filter given a PHP-empty value is the same as that filter left
      out, except founded_after, whose raw value founded_before validates. */
  lemma VendorsIgnoresEmpty(f: Filters, key: string, v: Validators)
    requires key in f && key in VendorsFilters && !Present(f, key) && key != "founded_after"
    ensures Vendors(f, v) == Vendors(f - {key}, v)
  {
    VendorsReadElsewhere();
    SpecIgnoresEmpty(VendorsFilters, VendorsSteps, f, key, v, Query([VendorsBase], map[]));
  }

  /** Only founded_after is read on behalf of another filter. */
  lemma VendorsReadElsewhere()
    ensures ReadElsewhere(VendorsSteps) <= {"founded_after"}
  {
    Gather7(VendorsSteps, NameStep, CountryStep, FoundedAfterStep, FoundedBeforeStep, CountStep,
            PriceStep, OrderByStep, ReadsFor);
    YearsReadElsewhere();
    OtherStepsAreNotYears();
  }

  lemma OtherStepsAreNotYears()
    ensures !NameStep.Year? && !CountryStep.Year? && !CountStep.Year? && !PriceStep.Year? && !OrderByStep.Year?
  {
  }

  lemma YearsReadElsewhere()
    ensures ReadsFor(FoundedAfterStep) == {} && ReadsFor(FoundedBeforeStep) == {"founded_after"}
  {
  }

  // ---------------------------------------------------------------------
  // findVendorById

  /** findVendorById: the query handed to `fetchSingle`. */
  function VendorById(vendorId: int): (q: Query)
    ensures WellBound(q) && q.args == map["vendor_id" := Int(vendorId)]
  {
    SelectById("vendors", "vendor_id", vendorId)
  }
}
