/** The switches model: `findSwitchesByVendorId`, the switches of one vendor. */
module SwitchesModel {

  import opened Php
  import opened Errors
  import opened Sql
  import opened FilterSteps
  import opened Blocks
  import opened Tables

  /** The accepted query-string keys, page and limit among them. */
  const SwitchesFilters: set<string> :=
    {"type", "lower_actuation_force_limit", "upper_actuation_force_limit", "lower_travel_distance_limit",
     "upper_travel_distance_limit", "lifespan_minimum", "released_after", "released_before", "page", "limit"}

  const SwitchTypes: seq<string> := ["linear", "tactile", "clicky"]

  const TypeFrag: Fragment := Like("type", "switch_type")
  const ForceFrag: Fragment := Between("actuation_force", "lower_limit", "upper_limit")
  const TravelFrag: Fragment := Between("total_travel", "lower_limit", "upper_limit")
  const LifespanFrag: Fragment := Compare("lifespan_million", ">=", "switch_lifespan")
  const ReleasedFrag: Fragment := Between("release_date", "switches_released_after", "switches_released_before")

  const TypeStep := OneOf("type", SwitchTypes, TypeFrag, "switch_type")
  /** The force range is bound under the same two names as the travel range. */
  const ForceStep :=
    Range("lower_actuation_force_limit", "upper_actuation_force_limit", Unchecked, ForceFrag,
          "lower_limit", "upper_limit")
  const TravelStep :=
    Range("lower_travel_distance_limit", "upper_travel_distance_limit", Unchecked, TravelFrag,
          "lower_limit", "upper_limit")
  const LifespanStep := Numeric("lifespan_minimum", LifespanFrag, "switch_lifespan")
  const ReleasedStep :=
    Range("released_after", "released_before", DateBounds, ReleasedFrag,
          "switches_released_after", "switches_released_before")

  const SwitchesSteps: seq<Step> := [TypeStep, ForceStep, TravelStep, LifespanStep, ReleasedStep]

  /** The query before any filter: the vendor's switches, its id bound under vendor_id. */
  function SwitchesBase(vendorId: int): (q: Query)
    ensures WellBound(q) && q.args == map["vendor_id" := Int(vendorId)]
  {
    SelectById("switches", "vendor_id", vendorId)
  }

  /** What `findSwitchesByVendorId` does, as a table. */
  function Switches(vendorId: int, f: Filters, v: Validators): Result<Query>
  {
    Spec(SwitchesFilters, SwitchesSteps, f, v, SwitchesBase(vendorId))
  }

  /** The table composed block by block, as the method runs it. */
  lemma SwitchesUnrolled(f: Filters, v: Validators, q: Query)
    ensures Run(SwitchesSteps, f, v, q)
         == Then(ReleasedStep, f, v, Then(LifespanStep, f, v, Then(TravelStep, f, v,
            Then(ForceStep, f, v, Then(TypeStep, f, v, Ok(q))))))
  {
    RunIsThenAll(SwitchesSteps, f, v, q);
    ThenAll5(SwitchesSteps, TypeStep, ForceStep, TravelStep, LifespanStep, ReleasedStep, f, v, Ok(q));
  }

  /** findSwitchesByVendorId: the query handed to `paginate`, or the exception thrown. */
  method FindSwitchesByVendorId(vendorId: int, filters: Filters, v: Validators) returns (r: Result<Query>)
    ensures r == Switches(vendorId, filters, v)
  {
    if filters.Keys - SwitchesFilters != {} {
      return Err(InvalidParameter);
    }
    var q := SwitchesBase(vendorId);
    SwitchesUnrolled(filters, v, q);
    r := OneOfBlock(filters, "type", SwitchTypes, TypeFrag, "switch_type", q);
    if r.Err? { return; }
    r := RangeBlock(filters, v, "lower_actuation_force_limit", "upper_actuation_force_limit", Unchecked,
                    ForceFrag, "lower_limit", "upper_limit", r.value);
    if r.Err? { return; }
    r := RangeBlock(filters, v, "lower_travel_distance_limit", "upper_travel_distance_limit", Unchecked,
                    TravelFrag, "lower_limit", "upper_limit", r.value);
    if r.Err? { return; }
    r := NumericBlock(filters, "lifespan_minimum", LifespanFrag, "switch_lifespan", r.value);
    if r.Err? { return; }
    r := RangeBlock(filters, v, "released_after", "released_before", DateBounds, ReleasedFrag,
                    "switches_released_after", "switches_released_before", r.value);
  }

  /** The checks of `findSwitchesByVendorId` written out in source order.
      The force and travel ranges only need their other half; their values
      are not checked. */
  function SwitchesCheck(f: Filters, v: Validators): Option<ErrorKind>
  {
    if Present(f, "type") && f["type"] !in SwitchTypes then Some(InvalidParameterValue)
    else if Present(f, "lower_actuation_force_limit") != Present(f, "upper_actuation_force_limit")
    then Some(RangeFilter)
    else if Present(f, "lower_travel_distance_limit") != Present(f, "upper_travel_distance_limit")
    then Some(RangeFilter)
    else if Present(f, "lifespan_minimum") && !IsNumeric(f["lifespan_minimum"]) then Some(InvalidParameterValue)
    else if Present(f, "released_after") != Present(f, "released_before") then Some(RangeFilter)
    else if Present(f, "released_after") && !(v.date(f["released_after"]) && v.date(f["released_before"]))
    then Some(InvalidDate)
    else None
  }

  lemma TypeError(f: Filters, v: Validators)
    ensures StepError(TypeStep, f, v)
         == if Present(f, "type") && f["type"] !in SwitchTypes then Some(InvalidParameterValue) else None
  {
  }

  lemma UncheckedRangesError(f: Filters, v: Validators)
    ensures StepError(ForceStep, f, v)
         == if Present(f, "lower_actuation_force_limit") != Present(f, "upper_actuation_force_limit")
            then Some(RangeFilter) else None
    ensures StepError(TravelStep, f, v)
         == if Present(f, "lower_travel_distance_limit") != Present(f, "upper_travel_distance_limit")
            then Some(RangeFilter) else None
  {
  }

  lemma LifespanError(f: Filters, v: Validators)
    ensures StepError(LifespanStep, f, v)
         == if Present(f, "lifespan_minimum") && !IsNumeric(f["lifespan_minimum"])
            then Some(InvalidParameterValue) else None
  {
  }

  lemma ReleasedError(f: Filters, v: Validators)
    ensures StepError(ReleasedStep, f, v)
         == if Present(f, "released_after") != Present(f, "released_before") then Some(RangeFilter)
            else if Present(f, "released_after") && !(v.date(f["released_after"]) && v.date(f["released_before"]))
            then Some(InvalidDate)
            else None
  {
  }

  /** The table throws what the written-out checks say. */
  lemma SwitchesFirstError(f: Filters, v: Validators)
    ensures FirstError(SwitchesSteps, f, v) == SwitchesCheck(f, v)
  {
    FirstError5(SwitchesSteps, TypeStep, ForceStep, TravelStep, LifespanStep, ReleasedStep, f, v);
    TypeError(f, v);
    UncheckedRangesError(f, v);
    LifespanError(f, v);
    ReleasedError(f, v);
  }

  /** findSwitchesByVendorId: InvalidParameter exactly for a key outside its
      ten names; else the first failing check; else the vendor's query
      followed by the fragments of the present filters, with their bindings. */
  lemma SwitchesOutcome(vendorId: int, f: Filters, v: Validators)
    ensures Switches(vendorId, f, v)
         == if !(f.Keys <= SwitchesFilters) then Err(InvalidParameter)
            else if SwitchesCheck(f, v).Some? then Err(SwitchesCheck(f, v).value)
            else Ok(Query(SwitchesBase(vendorId).frags + Emitted(SwitchesSteps, f),
                          map["vendor_id" := Int(vendorId)] + Bindings(SwitchesSteps, f)))
    ensures Switches(vendorId, f, v) == Err(InvalidParameter) <==> !(f.Keys <= SwitchesFilters)
  {
    SpecOutcome(SwitchesFilters, SwitchesSteps, f, v, SwitchesBase(vendorId));
    SwitchesFirstError(f, v);
  }

  /** With both ranges given, the travel bounds are what lower_limit and
      upper_limit are bound to: both BETWEEN clauses compare against them. */
  lemma SwitchesTravelWins(vendorId: int, f: Filters, v: Validators)
    requires Switches(vendorId, f, v).Ok?
    requires Present(f, "lower_travel_distance_limit") && Present(f, "upper_travel_distance_limit")
    ensures "lower_limit" in Switches(vendorId, f, v).value.args
    ensures Switches(vendorId, f, v).value.args["lower_limit"] == Str(f["lower_travel_distance_limit"])
    ensures "upper_limit" in Switches(vendorId, f, v).value.args
    ensures Switches(vendorId, f, v).value.args["upper_limit"] == Str(f["upper_travel_distance_limit"])
  {
    TravelBinding(f);
    LaterStepsSkipLimits();
    var base := SwitchesBase(vendorId);
    SpecBindingWins(SwitchesFilters, SwitchesSteps, f, v, base, 2, "lower_limit");
    SpecBindingWins(SwitchesFilters, SwitchesSteps, f, v, base, 2, "upper_limit");
  }

  lemma TravelBinding(f: Filters)
    requires Present(f, "lower_travel_distance_limit") && Present(f, "upper_travel_distance_limit")
    ensures SwitchesSteps[2] == TravelStep
    ensures "lower_limit" in StepArgs(TravelStep, f) && "upper_limit" in StepArgs(TravelStep, f)
    ensures StepArgs(TravelStep, f)["lower_limit"] == Str(f["lower_travel_distance_limit"])
    ensures StepArgs(TravelStep, f)["upper_limit"] == Str(f["upper_travel_distance_limit"])
  {
  }

  /** The steps after the travel range bind neither name. */
  lemma LaterStepsSkipLimits()
    ensures "lower_limit" !in Gather(SwitchesSteps[3..], ArgNames)
    ensures "upper_limit" !in Gather(SwitchesSteps[3..], ArgNames)
  {
    Gather2(SwitchesSteps[3..], LifespanStep, ReleasedStep, ArgNames);
  }

  /** The vendor id stays bound under vendor_id: no filter binds that name. */
  lemma SwitchesBindsVendor(vendorId: int, f: Filters, v: Validators)
    requires Switches(vendorId, f, v).Ok?
    ensures "vendor_id" in Switches(vendorId, f, v).value.args
    ensures Switches(vendorId, f, v).value.args["vendor_id"] == Int(vendorId)
  {
    StepsSkipVendor();
    SpecKeepsBase(SwitchesFilters, SwitchesSteps, f, v, SwitchesBase(vendorId), "vendor_id");
  }

  lemma StepsSkipVendor()
    ensures "vendor_id" !in Gather(SwitchesSteps, ArgNames)
  {
    Gather5(SwitchesSteps, TypeStep, ForceStep, TravelStep, LifespanStep, ReleasedStep, ArgNames);
    FirstStepsSkipVendor();
    LastStepsSkipVendor();
  }

  lemma FirstStepsSkipVendor()
    ensures "vendor_id" !in ArgNames(TypeStep) + ArgNames(ForceStep) + ArgNames(TravelStep)
  {
  }

  lemma LastStepsSkipVendor()
    ensures "vendor_id" !in ArgNames(LifespanStep) + ArgNames(ReleasedStep)
  {
  }

  /** page and limit pass the allow-list and no block reads them: either
      one, whatever its value, changes nothing. */
  lemma SwitchesIgnoresPaging(vendorId: int, f: Filters, key: string, v: Validators)
    requires key == "page" || key == "limit"
    ensures Switches(vendorId, f, v) == Switches(vendorId, f - {key}, v)
  {
    SwitchesReads();
    SpecIgnoresUnread(SwitchesFilters, SwitchesSteps, f, key, v, SwitchesBase(vendorId));
  }

  lemma SwitchesReads()
    ensures "page" !in ReadBy(SwitchesSteps) && "limit" !in ReadBy(SwitchesSteps)
  {
    Gather5(SwitchesSteps, TypeStep, ForceStep, TravelStep, LifespanStep, ReleasedStep, Reads);
    FirstStepsSkipPaging();
    LastStepsSkipPaging();
  }

  lemma FirstStepsSkipPaging()
    ensures "page" !in Reads(TypeStep) + Reads(ForceStep) + Reads(TravelStep)
    ensures "limit" !in Reads(TypeStep) + Reads(ForceStep) + Reads(TravelStep)
  {
  }

  lemma LastStepsSkipPaging()
    ensures "page" !in Reads(LifespanStep) + Reads(ReleasedStep)
    ensures "limit" !in Reads(LifespanStep) + Reads(ReleasedStep)
  {
  }

  lemma SwitchesConsistent()
    ensures forall i :: 0 <= i < |SwitchesSteps| ==> Consistent(SwitchesSteps[i])
  {
    SwitchesStepsConsistent();
    Every5(SwitchesSteps, TypeStep, ForceStep, TravelStep, LifespanStep, ReleasedStep, Consistent);
  }

  lemma SwitchesStepsConsistent()
    ensures Consistent(TypeStep) && Consistent(ForceStep) && Consistent(TravelStep)
    ensures Consistent(LifespanStep) && Consistent(ReleasedStep)
  {
  }

  /** Every placeholder of the query is bound, and every binding is used,
      even with both ranges given: they share their two names. */
  lemma SwitchesWellBound(vendorId: int, f: Filters, v: Validators)
    ensures Switches(vendorId, f, v).Ok? ==> WellBound(Switches(vendorId, f, v).value)
  {
    SwitchesConsistent();
    SpecWellBound(SwitchesFilters, SwitchesSteps, f, v, SwitchesBase(vendorId));
  }

  /** No filters: the vendor's query, only its id bound. */
  lemma SwitchesNoFilters(vendorId: int, v: Validators)
    ensures Switches(vendorId, map[], v) == Ok(SwitchesBase(vendorId))
  {
    SpecNoFilters(SwitchesFilters, SwitchesSteps, v, SwitchesBase(vendorId));
  }

  /** A known filter given a PHP-empty value is the same as that filter left out. */
  lemma SwitchesIgnoresEmpty(vendorId: int, f: Filters, key: string, v: Validators)
    requires key in f && key in SwitchesFilters && !Present(f, key)
    ensures Switches(vendorId, f, v) == Switches(vendorId, f - {key}, v)
  {
    SwitchesReadNothingElsewhere();
    SpecIgnoresEmpty(SwitchesFilters, SwitchesSteps, f, key, v, SwitchesBase(vendorId));
  }

  lemma SwitchesReadNothingElsewhere()
    ensures ReadElsewhere(SwitchesSteps) == {}
  {
    Gather5(SwitchesSteps, TypeStep, ForceStep, TravelStep, LifespanStep, ReleasedStep, ReadsFor);
    StepsAreNotYears();
  }

  lemma StepsAreNotYears()
    ensures !TypeStep.Year? && !ForceStep.Year? && !TravelStep.Year? && !LifespanStep.Year?
    ensures !ReleasedStep.Year?
  {
  }
}
