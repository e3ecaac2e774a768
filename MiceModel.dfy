/** The mice model: `getMice` and `findMouseById`. */
module MiceModel {

  import opened Php
  import opened Errors
  import opened Sql
  import opened FilterSteps
  import opened Blocks
  import opened Tables

  /** The polling rates accepted, as written: '100', not '1000'. */
  const PollingRates: seq<string> := ["125", "500", "100"]
  const Connections: seq<string> := ["wired", "wireless", "both"]

  // ---------------------------------------------------------------------
  // getMice

  /** The accepted query-string keys. page and limit are not among them. */
  const MiceFilters: set<string> :=
    {"name", "polling_rate", "connection", "weight_minimum", "weight_maximum", "lower_price_limit",
     "upper_price_limit", "button_count", "rating"}

  const MiceBase: Fragment :=
    [Chunk(" SELECT DISTINCT mice.* FROM mice JOIN mouse_buttons ON mice.mouse_id = mouse_buttons.mouse_id JOIN mouse_reviews ON mice.mouse_id = mouse_reviews.mouse_id WHERE 1 ")]
  const NameFrag: Fragment := Like("mice.name", "mice_name")
  const PollingFrag: Fragment := Like("mice.polling_rate", "mice_polling_rate")
  const ConnectionFrag: Fragment := Like("mice.connection", "mice_connection")
  const WeightFrag: Fragment := Between("mice.weight", "mice_weight_minimum", "mice_weight_maximum")
  const PriceFrag: Fragment := Between("mice.price", "lower_limit", "upper_limit")
  /** The fragment of the button_count block, which is never appended. */
  const ButtonCountFrag: Fragment :=
    Placed(" GROUP BY mice.mouse_id HAVING COUNT(mouse_buttons.mouse_id) ?>= ", "button_count", " ")
  const RatingFrag: Fragment :=
    Placed(" GROUP BY mice.mouse_id HAVING AVG(mouse_reviews.rating) >= ", "mouse_rating", " ")

  const NameStep := Plain("name", NameFrag, "mice_name")
  const PollingStep := OneOf("polling_rate", PollingRates, PollingFrag, "mice_polling_rate")
  const ConnectionStep := OneOf("connection", Connections, ConnectionFrag, "mice_connection")
  const WeightStep :=
    Range("weight_minimum", "weight_maximum", NumericBounds, WeightFrag, "mice_weight_minimum", "mice_weight_maximum")
  const PriceStep :=
    Range("lower_price_limit", "upper_price_limit", NumericBounds, PriceFrag, "lower_limit", "upper_limit")
  const RatingStep := Numeric("rating", RatingFrag, "mouse_rating")

  /** The blocks that can fire. The button_count block tests `$filter`, a
      variable never assigned, so its guard is always empty and it has no
      step. */
  const MiceSteps: seq<Step> := [NameStep, PollingStep, ConnectionStep, WeightStep, PriceStep, RatingStep]

  /** What `getMice` does, as a table. */
  function Mice(f: Filters, v: Validators): Result<Query>
  {
    Spec(MiceFilters, MiceSteps, f, v, Query([MiceBase], map[]))
  }

  /** The table composed block by block, as the method runs it. */
  lemma MiceUnrolled(f: Filters, v: Validators, q: Query)
    ensures Run(MiceSteps, f, v, q)
         == Then(RatingStep, f, v, Then(PriceStep, f, v, Then(WeightStep, f, v,
            Then(ConnectionStep, f, v, Then(PollingStep, f, v, Then(NameStep, f, v, Ok(q)))))))
  {
    RunIsThenAll(MiceSteps, f, v, q);
    ThenAll6(MiceSteps, NameStep, PollingStep, ConnectionStep, WeightStep, PriceStep, RatingStep, f, v, Ok(q));
  }

  /** A block guarded by a filter array that has no entries passes the query on. */
  lemma UnsetArrayBlock(s: Step, v: Validators, q: Query)
    requires s.Numeric?
    ensures Then(s, map[], v, Ok(q)) == Ok(q)
  {
    assert !Present(map[], s.key);
  }

  /** getMice: the query handed to `paginate`, or the exception thrown. */
  method GetMice(filters: Filters, v: Validators) returns (r: Result<Query>)
    ensures r == Mice(filters, v)
  {
    if filters.Keys - MiceFilters != {} {
      return Err(InvalidParameter);
    }
    var q := Query([MiceBase], map[]);
    MiceUnrolled(filters, v, q);
    q := PlainBlock(filters, "name", NameFrag, "mice_name", q);
    r := OneOfBlock(filters, "polling_rate", PollingRates, PollingFrag, "mice_polling_rate", q);
    if r.Err? { return; }
    r := OneOfBlock(filters, "connection", Connections, ConnectionFrag, "mice_connection", r.value);
    if r.Err? { return; }
    r := RangeBlock(filters, v, "weight_minimum", "weight_maximum", NumericBounds, WeightFrag,
                    "mice_weight_minimum", "mice_weight_maximum", r.value);
    if r.Err? { return; }
    r := RangeBlock(filters, v, "lower_price_limit", "upper_price_limit", NumericBounds, PriceFrag,
                    "lower_limit", "upper_limit", r.value);
    if r.Err? { return; }
    // `$filter` is never assigned: its entries are those of an empty array.
    var filter: Filters := map[];
    UnsetArrayBlock(Numeric("button_count", ButtonCountFrag, "button_count"), v, r.value);
    r := NumericBlock(filter, "button_count", ButtonCountFrag, "button_count", r.value);
    if r.Err? { return; }
    r := NumericBlock(filters, "rating", RatingFrag, "mouse_rating", r.value);
  }

  /** The checks of `getMice` written out in source order. */
  function MiceCheck(f: Filters): Option<ErrorKind>
  {
    if Present(f, "polling_rate") && f["polling_rate"] !in PollingRates then Some(InvalidParameterValue)
    else if Present(f, "connection") && f["connection"] !in Connections then Some(InvalidParameterValue)
    else if Present(f, "weight_minimum") != Present(f, "weight_maximum") then Some(RangeFilter)
    else if Present(f, "weight_minimum") && !(IsNumeric(f["weight_minimum"]) && IsNumeric(f["weight_maximum"]))
    then Some(InvalidParameterValue)
    else if Present(f, "lower_price_limit") != Present(f, "upper_price_limit") then Some(RangeFilter)
    else if Present(f, "lower_price_limit")
            && !(IsNumeric(f["lower_price_limit"]) && IsNumeric(f["upper_price_limit"]))
    then Some(InvalidParameterValue)
    else if Present(f, "rating") && !IsNumeric(f["rating"]) then Some(InvalidParameterValue)
    else None
  }

  lemma NameNeverThrows(f: Filters, v: Validators)
    ensures StepError(NameStep, f, v) == None
  {
  }

  lemma PollingError(f: Filters, v: Validators)
    ensures StepError(PollingStep, f, v)
         == if Present(f, "polling_rate") && f["polling_rate"] !in PollingRates
            then Some(InvalidParameterValue) else None
  {
  }

  lemma ConnectionError(f: Filters, v: Validators)
    ensures StepError(ConnectionStep, f, v)
         == if Present(f, "connection") && f["connection"] !in Connections
            then Some(InvalidParameterValue) else None
  {
  }

  lemma WeightError(f: Filters, v: Validators)
    ensures StepError(WeightStep, f, v)
         == if Present(f, "weight_minimum") != Present(f, "weight_maximum") then Some(RangeFilter)
            else if Present(f, "weight_minimum")
                    && !(IsNumeric(f["weight_minimum"]) && IsNumeric(f["weight_maximum"]))
            then Some(InvalidParameterValue)
            else None
  {
  }

  lemma PriceError(f: Filters, v: Validators)
    ensures StepError(PriceStep, f, v)
         == if Present(f, "lower_price_limit") != Present(f, "upper_price_limit") then Some(RangeFilter)
            else if Present(f, "lower_price_limit")
                    && !(IsNumeric(f["lower_price_limit"]) && IsNumeric(f["upper_price_limit"]))
            then Some(InvalidParameterValue)
            else None
  {
  }

  lemma RatingError(f: Filters, v: Validators)
    ensures StepError(RatingStep, f, v)
         == if Present(f, "rating") && !IsNumeric(f["rating"]) then Some(InvalidParameterValue) else None
  {
  }

  /** The table throws what the written-out checks say. */
  lemma MiceFirstError(f: Filters, v: Validators)
    ensures FirstError(MiceSteps, f, v) == MiceCheck(f)
  {
    FirstError6(MiceSteps, NameStep, PollingStep, ConnectionStep, WeightStep, PriceStep, RatingStep, f, v);
    NameNeverThrows(f, v);
    PollingError(f, v);
    ConnectionError(f, v);
    WeightError(f, v);
    PriceError(f, v);
    RatingError(f, v);
  }

  /** getMice: InvalidParameter exactly for a key outside the nine filter
      names; else the first failing check; else the base query followed by
      the fragments of the present filters in table order, with their
      bindings. */
  lemma MiceOutcome(f: Filters, v: Validators)
    ensures Mice(f, v)
         == if !(f.Keys <= MiceFilters) then Err(InvalidParameter)
            else if MiceCheck(f).Some? then Err(MiceCheck(f).value)
            else Ok(Query([MiceBase] + Emitted(MiceSteps, f), Bindings(MiceSteps, f)))
    ensures Mice(f, v) == Err(InvalidParameter) <==> !(f.Keys <= MiceFilters)
  {
    SpecOutcome(MiceFilters, MiceSteps, f, v, Query([MiceBase], map[]));
    MiceFirstError(f, v);
    EmptyUnion(Bindings(MiceSteps, f));
  }

  /** page, limit and order_by are not accepted: each is an InvalidParameter. */
  lemma MiceUnknownKey(f: Filters, v: Validators)
    requires "page" in f || "limit" in f || "order_by" in f
    ensures Mice(f, v) == Err(InvalidParameter)
  {
    MiceFiltersOmit();
    assert !(f.Keys <= MiceFilters);
    MiceOutcome(f, v);
  }

  lemma MiceFiltersOmit()
    ensures "page" !in MiceFilters && "limit" !in MiceFilters && "order_by" !in MiceFilters
  {
  }

  /** button_count is accepted, and whatever its value it changes nothing. */
  lemma MiceIgnoresButtonCount(f: Filters, v: Validators)
    ensures Mice(f, v) == Mice(f - {"button_count"}, v)
  {
    MiceSkipButtonCount();
    SpecIgnoresUnread(MiceFilters, MiceSteps, f, "button_count", v, Query([MiceBase], map[]));
  }

  lemma MiceSkipButtonCount()
    ensures "button_count" in MiceFilters && "button_count" !in ReadBy(MiceSteps)
  {
    Gather6(MiceSteps, NameStep, PollingStep, ConnectionStep, WeightStep, PriceStep, RatingStep, Reads);
    FirstStepsSkipButtonCount();
    LastStepsSkipButtonCount();
  }

  lemma FirstStepsSkipButtonCount()
    ensures "button_count" !in Reads(NameStep) + Reads(PollingStep) + Reads(ConnectionStep)
  {
  }

  lemma LastStepsSkipButtonCount()
    ensures "button_count" !in Reads(WeightStep) + Reads(PriceStep) + Reads(RatingStep)
  {
  }

  /** A polling rate of 1000 is refused: with the keys known, it is an
      InvalidParameterValue whatever the other filters. */
  lemma MicePolling1000(f: Filters, v: Validators)
    requires f.Keys <= MiceFilters && "polling_rate" in f && f["polling_rate"] == "1000"
    ensures Mice(f, v) == Err(InvalidParameterValue)
  {
    PollingRateValues();
    assert Present(f, "polling_rate");
    assert MiceCheck(f) == Some(InvalidParameterValue);
    MiceOutcome(f, v);
  }

  /** A polling rate of 100 passes its check and is bound as given. */
  lemma MicePolling100(f: Filters, v: Validators)
    requires "polling_rate" in f && f["polling_rate"] == "100"
    ensures StepError(PollingStep, f, v) == None
    ensures StepArgs(PollingStep, f) == map["mice_polling_rate" := Str("100")]
  {
    PollingRateValues();
    PollingError(f, v);
  }

  lemma PollingRateValues()
    ensures "1000" !in PollingRates && "100" in PollingRates
  {
  }

  lemma MiceConsistent()
    ensures forall i :: 0 <= i < |MiceSteps| ==> Consistent(MiceSteps[i])
  {
    MiceStepsConsistent();
    Every6(MiceSteps, NameStep, PollingStep, ConnectionStep, WeightStep, PriceStep, RatingStep, Consistent);
  }

  lemma MiceStepsConsistent()
    ensures Consistent(NameStep) && Consistent(PollingStep) && Consistent(ConnectionStep)
    ensures Consistent(WeightStep) && Consistent(PriceStep) && Consistent(RatingStep)
  {
  }

  /** Every placeholder of the query is bound, and every binding is used. */
  lemma MiceWellBound(f: Filters, v: Validators)
    ensures Mice(f, v).Ok? ==> WellBound(Mice(f, v).value)
  {
    var base := Query([MiceBase], map[]);
    MiceConsistent();
    assert WellBound(base) by {
      assert [MiceBase][1..] == [];
    }
    SpecWellBound(MiceFilters, MiceSteps, f, v, base);
  }

  /** No filters: the base query, nothing bound. */
  lemma MiceNoFilters(v: Validators)
    ensures Mice(map[], v) == Ok(Query([MiceBase], map[]))
  {
    SpecNoFilters(MiceFilters, MiceSteps, v, Query([MiceBase], map[]));
  }

  /** A known filter given a PHP-empty value is the same as that filter left out. */
  lemma MiceIgnoresEmpty(f: Filters, key: string, v: Validators)
    requires key in f && key in MiceFilters && !Present(f, key)
    ensures Mice(f, v) == Mice(f - {key}, v)
  {
    MiceReadNothingElsewhere();
    SpecIgnoresEmpty(MiceFilters, MiceSteps, f, key, v, Query([MiceBase], map[]));
  }

  lemma MiceReadNothingElsewhere()
    ensures ReadElsewhere(MiceSteps) == {}
  {
    Gather6(MiceSteps, NameStep, PollingStep, ConnectionStep, WeightStep, PriceStep, RatingStep, ReadsFor);
    StepsAreNotYears();
  }

  lemma StepsAreNotYears()
    ensures !NameStep.Year? && !PollingStep.Year? && !ConnectionStep.Year?
    ensures !WeightStep.Year? && !PriceStep.Year? && !RatingStep.Year?
  {
  }

  // ---------------------------------------------------------------------
  // findMouseById

  /** findMouseById: the query handed to `fetchSingle`. */
  function MouseById(mouseId: int): (q: Query)
    ensures WellBound(q) && q.args == map["mouse_id" := Int(mouseId)]
  {
    SelectById("mice", "mouse_id", mouseId)
  }
}
