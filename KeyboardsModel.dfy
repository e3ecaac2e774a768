/** The keyboards model: `getKeyboards`, `findKeyboardById` and
    `findKeyboardByLayoutId`. */
module KeyboardsModel {

  import opened Php
  import opened Errors
  import opened Sql
  import opened FilterSteps
  import opened Blocks
  import opened Tables

  const Connectivities: seq<string> := ["wired", "wireless", "both"]
  const SwitchTypes: seq<string> := ["linear", "tactile", "clicky"]
  const FirmwareTypes: seq<string> := ["QMK", "proprietary"]

  // ---------------------------------------------------------------------
  // getKeyboards

  /** The accepted query-string keys. page and limit are not among them. */
  const KeyboardsFilters: set<string> :=
    {"name", "connectivity", "switch_type", "hotswappable", "weight_maximum",
     "released_before", "released_after", "firmware_type"}

  const KeyboardsBase: Fragment :=
    [Chunk(" SELECT * FROM keyboards JOIN switches ON keyboards.switch_id = switches.switch_id JOIN pcbs ON keyboards.keyboard_id = pcbs.keyboard_id WHERE 1 ")]
  const NameFrag: Fragment := Like("keyboards.name", "keyboards_name")
  const ConnectivityFrag: Fragment := Like("keyboards.connectivity", "keyboards_connectivity")
  const SwitchTypeFrag: Fragment := Like("switches.name", "switch_type")
  const HotSwappableFrag: Fragment := Compare("keyboards.hot_swappable", "=", "hot_swappable")
  const WeightFrag: Fragment := Compare("keyboards.weight", "<=", "keyboards_weight_maximum")
  const ReleasedFrag: Fragment :=
    Between("keyboards.release_date", "keyboards_released_after", "keyboards_released_before")
  const FirmwareFrag: Fragment := Like("pcbs.firmware", "keyboards_firmware_type")

  const NameStep := Plain("name", NameFrag, "keyboards_name")
  const ConnectivityStep := OneOf("connectivity", Connectivities, ConnectivityFrag, "keyboards_connectivity")
  const SwitchTypeStep := OneOf("switch_type", SwitchTypes, SwitchTypeFrag, "switch_type")
  const HotSwappableStep := Flag("hotswappable", HotSwappableFrag, "hot_swappable")
  const WeightStep := Numeric("weight_maximum", WeightFrag, "keyboards_weight_maximum")
  const ReleasedStep :=
    Range("released_after", "released_before", DateBounds, ReleasedFrag,
          "keyboards_released_after", "keyboards_released_before")
  const FirmwareStep := OneOf("firmware_type", FirmwareTypes, FirmwareFrag, "keyboards_firmware_type")

  const KeyboardsSteps: seq<Step> :=
    [NameStep, ConnectivityStep, SwitchTypeStep, HotSwappableStep, WeightStep, ReleasedStep, FirmwareStep]

  /** What `getKeyboards` does, as a table. */
  function Keyboards(f: Filters, v: Validators): Result<Query>
  {
    Spec(KeyboardsFilters, KeyboardsSteps, f, v, Query([KeyboardsBase], map[]))
  }

  /** The table composed block by block, as the method runs it. */
  lemma KeyboardsUnrolled(f: Filters, v: Validators, q: Query)
    ensures Run(KeyboardsSteps, f, v, q)
         == Then(FirmwareStep, f, v, Then(ReleasedStep, f, v, Then(WeightStep, f, v,
            Then(HotSwappableStep, f, v, Then(SwitchTypeStep, f, v, Then(ConnectivityStep, f, v,
            Then(NameStep, f, v, Ok(q))))))))
  {
    RunIsThenAll(KeyboardsSteps, f, v, q);
    ThenAll7(KeyboardsSteps, NameStep, ConnectivityStep, SwitchTypeStep, HotSwappableStep, WeightStep,
            ReleasedStep, FirmwareStep, f, v, Ok(q));
  }

  /** getKeyboards: the query handed to `paginate`, or the exception thrown. */
  method GetKeyboards(filters: Filters, v: Validators) returns (r: Result<Query>)
    ensures r == Keyboards(filters, v)
  {
    if filters.Keys - KeyboardsFilters != {} {
      return Err(InvalidParameter);
    }
    var q := Query([KeyboardsBase], map[]);
    KeyboardsUnrolled(filters, v, q);
    q := PlainBlock(filters, "name", NameFrag, "keyboards_name", q);
    r := OneOfBlock(filters, "connectivity", Connectivities, ConnectivityFrag, "keyboards_connectivity", q);
    if r.Err? { return; }
    r := OneOfBlock(filters, "switch_type", SwitchTypes, SwitchTypeFrag, "switch_type", r.value);
    if r.Err? { return; }
    q := FlagBlock(filters, "hotswappable", HotSwappableFrag, "hot_swappable", r.value);
    r := NumericBlock(filters, "weight_maximum", WeightFrag, "keyboards_weight_maximum", q);
    if r.Err? { return; }
    r := RangeBlock(filters, v, "released_after", "released_before", DateBounds, ReleasedFrag,
                    "keyboards_released_after", "keyboards_released_before", r.value);
    if r.Err? { return; }
    r := OneOfBlock(filters, "firmware_type", FirmwareTypes, FirmwareFrag, "keyboards_firmware_type", r.value);
  }

  /** The checks of `getKeyboards` written out in source order: the
      exception of the first that fails, if any. */
  function KeyboardsCheck(f: Filters, v: Validators): Option<ErrorKind>
  {
    if Present(f, "connectivity") && f["connectivity"] !in Connectivities then Some(InvalidParameterValue)
    else if Present(f, "switch_type") && f["switch_type"] !in SwitchTypes then Some(InvalidParameterValue)
    else if Present(f, "weight_maximum") && !IsNumeric(f["weight_maximum"]) then Some(InvalidParameterValue)
    else if Present(f, "released_after") != Present(f, "released_before") then Some(RangeFilter)
    else if Present(f, "released_after") && !(v.date(f["released_after"]) && v.date(f["released_before"]))
    then Some(InvalidDate)
    else if Present(f, "firmware_type") && f["firmware_type"] !in FirmwareTypes then Some(InvalidParameterValue)
    else None
  }

  /** The table throws what the written-out checks say. */
  lemma KeyboardsFirstError(f: Filters, v: Validators)
    ensures FirstError(KeyboardsSteps, f, v) == KeyboardsCheck(f, v)
  {
    FirstError7(KeyboardsSteps, NameStep, ConnectivityStep, SwitchTypeStep, HotSwappableStep, WeightStep,
            ReleasedStep, FirmwareStep, f, v);
    NameNeverThrows(f, v);
    ConnectivityError(f, v);
    SwitchTypeError(f, v);
    HotSwappableNeverThrows(f, v);
    WeightError(f, v);
    ReleasedError(f, v);
    FirmwareError(f, v);
  }

  lemma NameNeverThrows(f: Filters, v: Validators)
    ensures StepError(NameStep, f, v) == None
  {
  }

  lemma ConnectivityError(f: Filters, v: Validators)
    ensures StepError(ConnectivityStep, f, v)
         == if Present(f, "connectivity") && f["connectivity"] !in Connectivities
            then Some(InvalidParameterValue) else None
  {
  }

  lemma SwitchTypeError(f: Filters, v: Validators)
    ensures StepError(SwitchTypeStep, f, v)
         == if Present(f, "switch_type") && f["switch_type"] !in SwitchTypes
            then Some(InvalidParameterValue) else None
  {
  }

  lemma HotSwappableNeverThrows(f: Filters, v: Validators)
    ensures StepError(HotSwappableStep, f, v) == None
  {
  }

  lemma WeightError(f: Filters, v: Validators)
    ensures StepError(WeightStep, f, v)
         == if Present(f, "weight_maximum") && !IsNumeric(f["weight_maximum"])
            then Some(InvalidParameterValue) else None
  {
  }

  lemma ReleasedError(f: Filters, v: Validators)
    ensures StepError(ReleasedStep, f, v)
         == if Present(f, "released_after") != Present(f, "released_before") then Some(RangeFilter)
            else if Present(f, "released_after") && !(v.date(f["released_after"]) && v.date(f["released_before"]))
            then Some(InvalidDate)
            else None
  {
  }

  lemma FirmwareError(f: Filters, v: Validators)
    ensures StepError(FirmwareStep, f, v)
         == if Present(f, "firmware_type") && f["firmware_type"] !in FirmwareTypes
            then Some(InvalidParameterValue) else None
  {
  }

  /** getKeyboards: InvalidParameter exactly for a key outside the eight
      filter names; else the first failing check; else the base query
      followed by the fragments of the present filters in table order, with
      their bindings. */
  lemma KeyboardsOutcome(f: Filters, v: Validators)
    ensures Keyboards(f, v)
         == if !(f.Keys <= KeyboardsFilters) then Err(InvalidParameter)
            else if KeyboardsCheck(f, v).Some? then Err(KeyboardsCheck(f, v).value)
            else Ok(Query([KeyboardsBase] + Emitted(KeyboardsSteps, f), Bindings(KeyboardsSteps, f)))
    ensures Keyboards(f, v) == Err(InvalidParameter) <==> !(f.Keys <= KeyboardsFilters)
  {
    SpecOutcome(KeyboardsFilters, KeyboardsSteps, f, v, Query([KeyboardsBase], map[]));
    KeyboardsFirstError(f, v);
    EmptyUnion(Bindings(KeyboardsSteps, f));
  }

  /** page, limit and order_by are not accepted: each is an InvalidParameter. */
  lemma KeyboardsUnknownKey(f: Filters, v: Validators)
    requires "page" in f || "limit" in f || "order_by" in f
    ensures Keyboards(f, v) == Err(InvalidParameter)
  {
    KeyboardsFiltersOmit();
    assert !(f.Keys <= KeyboardsFilters);
    KeyboardsOutcome(f, v);
  }

  lemma KeyboardsFiltersOmit()
    ensures "page" !in KeyboardsFilters && "limit" !in KeyboardsFilters && "order_by" !in KeyboardsFilters
  {
  }

  lemma KeyboardsConsistent()
    ensures forall i :: 0 <= i < |KeyboardsSteps| ==> Consistent(KeyboardsSteps[i])
  {
    KeyboardsStepsConsistent();
    Every7(KeyboardsSteps, NameStep, ConnectivityStep, SwitchTypeStep, HotSwappableStep, WeightStep,
            ReleasedStep, FirmwareStep, Consistent);
  }

  lemma KeyboardsStepsConsistent()
    ensures Consistent(NameStep) && Consistent(ConnectivityStep) && Consistent(SwitchTypeStep)
    ensures Consistent(HotSwappableStep) && Consistent(WeightStep) && Consistent(ReleasedStep)
    ensures Consistent(FirmwareStep)
  {
  }

  /** Every placeholder of the query is bound, and every binding is used. */
  lemma KeyboardsWellBound(f: Filters, v: Validators)
    ensures Keyboards(f, v).Ok? ==> WellBound(Keyboards(f, v).value)
  {
    var base := Query([KeyboardsBase], map[]);
    KeyboardsConsistent();
    assert WellBound(base) by {
      assert [KeyboardsBase][1..] == [];
    }
    SpecWellBound(KeyboardsFilters, KeyboardsSteps, f, v, base);
  }

  /** No filters: the base query, nothing bound. */
  lemma KeyboardsNoFilters(v: Validators)
    ensures Keyboards(map[], v) == Ok(Query([KeyboardsBase], map[]))
  {
    SpecNoFilters(KeyboardsFilters, KeyboardsSteps, v, Query([KeyboardsBase], map[]));
  }

  /** A known filter given a PHP-empty value is the same as that filter left
      out. */
  lemma KeyboardsIgnoresEmpty(f: Filters, key: string, v: Validators)
    requires key in f && key in KeyboardsFilters && !Present(f, key)
    ensures Keyboards(f, v) == Keyboards(f - {key}, v)
  {
    KeyboardsReadNothingElsewhere();
    SpecIgnoresEmpty(KeyboardsFilters, KeyboardsSteps, f, key, v, Query([KeyboardsBase], map[]));
  }

  /** No keyboards filter is read on behalf of another. */
  lemma KeyboardsReadNothingElsewhere()
    ensures ReadElsewhere(KeyboardsSteps) == {}
  {
    Gather7(KeyboardsSteps, NameStep, ConnectivityStep, SwitchTypeStep, HotSwappableStep, WeightStep,
            ReleasedStep, FirmwareStep, ReadsFor);
    NoYearReadsNothingElsewhere(NameStep);
    NoYearReadsNothingElsewhere(ConnectivityStep);
    NoYearReadsNothingElsewhere(SwitchTypeStep);
    NoYearReadsNothingElsewhere(HotSwappableStep);
    NoYearReadsNothingElsewhere(WeightStep);
    NoYearReadsNothingElsewhere(ReleasedStep);
    NoYearReadsNothingElsewhere(FirmwareStep);
  }

  /** The release pair, once the keys are known and the three checks before
      it pass: one bound alone is a RangeFilter whatever its value; with
      both, a date the validator refuses is an InvalidDate. */
  lemma KeyboardsReleased(f: Filters, v: Validators)
    requires f.Keys <= KeyboardsFilters
    requires Present(f, "connectivity") ==> f["connectivity"] in Connectivities
    requires Present(f, "switch_type") ==> f["switch_type"] in SwitchTypes
    requires Present(f, "weight_maximum") ==> IsNumeric(f["weight_maximum"])
    ensures Present(f, "released_after") != Present(f, "released_before") ==>
              Keyboards(f, v) == Err(RangeFilter)
    ensures Present(f, "released_after") && Present(f, "released_before")
              && !(v.date(f["released_after"]) && v.date(f["released_before"])) ==>
              Keyboards(f, v) == Err(InvalidDate)
  {
    KeyboardsOutcome(f, v);
  }

  /** hotswappable never throws and is bound as 1 or 0. */
  lemma KeyboardsHotSwappable(f: Filters, v: Validators)
    requires Keyboards(f, v).Ok? && Present(f, "hotswappable")
    ensures "hot_swappable" in Keyboards(f, v).value.args
    ensures Keyboards(f, v).value.args["hot_swappable"]
              == Int(if FilterBool(f["hotswappable"]) then 1 else 0)
  {
    KeyboardsOutcome(f, v);
    Bindings7(KeyboardsSteps, NameStep, ConnectivityStep, SwitchTypeStep, HotSwappableStep, WeightStep,
            ReleasedStep, FirmwareStep, f);
    var k, hot := "hot_swappable", StepArgs(HotSwappableStep, f);
    var later := StepArgs(WeightStep, f) + (StepArgs(ReleasedStep, f) + StepArgs(FirmwareStep, f));
    HotSwappableBinding(f);
    UnionBinding(hot, later, k);
    UnionBinding(StepArgs(SwitchTypeStep, f), hot + later, k);
    UnionBinding(StepArgs(ConnectivityStep, f), StepArgs(SwitchTypeStep, f) + (hot + later), k);
    UnionBinding(StepArgs(NameStep, f), StepArgs(ConnectivityStep, f) + (StepArgs(SwitchTypeStep, f) + (hot + later)), k);
    UnionBinding(map[], Bindings(KeyboardsSteps, f), k);
  }

  /** hot_swappable is bound by the hotswappable block and by no block after it. */
  lemma HotSwappableBinding(f: Filters)
    requires Present(f, "hotswappable")
    ensures "hot_swappable" in StepArgs(HotSwappableStep, f)
    ensures StepArgs(HotSwappableStep, f)["hot_swappable"] == Int(if FilterBool(f["hotswappable"]) then 1 else 0)
    ensures "hot_swappable" !in (StepArgs(WeightStep, f) + (StepArgs(ReleasedStep, f) + StepArgs(FirmwareStep, f))).Keys
  {
    assert "hot_swappable" !in StepArgs(WeightStep, f).Keys;
    assert "hot_swappable" !in StepArgs(ReleasedStep, f).Keys;
    assert "hot_swappable" !in StepArgs(FirmwareStep, f).Keys;
  }

  // ---------------------------------------------------------------------
  // findKeyboardById

  /** findKeyboardById: the query handed to `fetchSingle`. */
  function KeyboardById(keyboardId: int): (q: Query)
    ensures WellBound(q) && q.args == map["keyboard_id" := Int(keyboardId)]
  {
    SelectById("keyboards", "keyboard_id", keyboardId)
  }

  // ---------------------------------------------------------------------
  // findKeyboardByLayoutId

  const ByLayoutFilters: set<string> :=
    {"switch_type", "lower_price_limit", "upper_price_limit", "connectivity"}

  const ByLayoutBase: Fragment :=
    Placed(" SELECT * FROM keyboards JOIN switches ON keyboards.switch_id = switches.switch_id WHERE layout_id = ",
           "layout_id", " ")
  const PriceFrag: Fragment := Between("keyboards.price", "lower_limit", "upper_limit")

  /** Here switch_type is matched by substring with no list of allowed values. */
  const LayoutSwitchStep := Plain("switch_type", SwitchTypeFrag, "switch_type")
  const PriceStep :=
    Range("lower_price_limit", "upper_price_limit", NumericBounds, PriceFrag, "lower_limit", "upper_limit")

  const ByLayoutSteps: seq<Step> := [LayoutSwitchStep, PriceStep, ConnectivityStep]

  /** What `findKeyboardByLayoutId` does, as a table. */
  function KeyboardsByLayout(layoutId: int, f: Filters, v: Validators): Result<Query>
  {
    Spec(ByLayoutFilters, ByLayoutSteps, f, v, Query([ByLayoutBase], map["layout_id" := Int(layoutId)]))
  }

  lemma ByLayoutUnrolled(f: Filters, v: Validators, q: Query)
    ensures Run(ByLayoutSteps, f, v, q)
         == Then(ConnectivityStep, f, v, Then(PriceStep, f, v, Then(LayoutSwitchStep, f, v, Ok(q))))
  {
    RunIsThenAll(ByLayoutSteps, f, v, q);
    ThenAll3(ByLayoutSteps, LayoutSwitchStep, PriceStep, ConnectivityStep, f, v, Ok(q));
  }

  /** findKeyboardByLayoutId: the query handed to `paginate`, or the
      exception thrown. */
  method FindKeyboardByLayoutId(layoutId: int, filters: Filters, v: Validators) returns (r: Result<Query>)
    ensures r == KeyboardsByLayout(layoutId, filters, v)
  {
    if filters.Keys - ByLayoutFilters != {} {
      return Err(InvalidParameter);
    }
    var q := Query([ByLayoutBase], map["layout_id" := Int(layoutId)]);
    ByLayoutUnrolled(filters, v, q);
    q := PlainBlock(filters, "switch_type", SwitchTypeFrag, "switch_type", q);
    r := RangeBlock(filters, v, "lower_price_limit", "upper_price_limit", NumericBounds, PriceFrag,
                    "lower_limit", "upper_limit", q);
    if r.Err? { return; }
    r := OneOfBlock(filters, "connectivity", Connectivities, ConnectivityFrag, "keyboards_connectivity", r.value);
  }

  /** The checks of `findKeyboardByLayoutId` written out in source order. */
  function ByLayoutCheck(f: Filters): Option<ErrorKind>
  {
    if Present(f, "lower_price_limit") != Present(f, "upper_price_limit") then Some(RangeFilter)
    else if Present(f, "lower_price_limit")
            && !(IsNumeric(f["lower_price_limit"]) && IsNumeric(f["upper_price_limit"]))
    then Some(InvalidParameterValue)
    else if Present(f, "connectivity") && f["connectivity"] !in Connectivities then Some(InvalidParameterValue)
    else None
  }

  lemma LayoutSwitchNeverThrows(f: Filters, v: Validators)
    ensures StepError(LayoutSwitchStep, f, v) == None
  {
  }

  lemma PriceError(f: Filters, v: Validators)
    ensures StepError(PriceStep, f, v)
         == if Present(f, "lower_price_limit") != Present(f, "upper_price_limit") then Some(RangeFilter)
            else if Present(f, "lower_price_limit")
                    && !(IsNumeric(f["lower_price_limit"]) && IsNumeric(f["upper_price_limit"]))
            then Some(InvalidParameterValue)
            else None
  {
  }

  /** The table throws what the written-out checks say. */
  lemma ByLayoutFirstError(f: Filters, v: Validators)
    ensures FirstError(ByLayoutSteps, f, v) == ByLayoutCheck(f)
  {
    FirstError3(ByLayoutSteps, LayoutSwitchStep, PriceStep, ConnectivityStep, f, v);
    LayoutSwitchNeverThrows(f, v);
    PriceError(f, v);
    ConnectivityError(f, v);
  }

  /** findKeyboardByLayoutId: InvalidParameter exactly for a key outside its
      four filter names; else the first failing check; else the base query,
      with the layout id bound, followed by the fragments of the present
      filters. */
  lemma ByLayoutOutcome(layoutId: int, f: Filters, v: Validators)
    ensures KeyboardsByLayout(layoutId, f, v)
         == if !(f.Keys <= ByLayoutFilters) then Err(InvalidParameter)
            else if ByLayoutCheck(f).Some? then Err(ByLayoutCheck(f).value)
            else Ok(Query([ByLayoutBase] + Emitted(ByLayoutSteps, f),
                          map["layout_id" := Int(layoutId)] + Bindings(ByLayoutSteps, f)))
    ensures KeyboardsByLayout(layoutId, f, v) == Err(InvalidParameter) <==> !(f.Keys <= ByLayoutFilters)
  {
    SpecOutcome(ByLayoutFilters, ByLayoutSteps, f, v, Query([ByLayoutBase], map["layout_id" := Int(layoutId)]));
    ByLayoutFirstError(f, v);
  }

  /** page, limit and order_by are not accepted here either. */
  lemma ByLayoutUnknownKey(layoutId: int, f: Filters, v: Validators)
    requires "page" in f || "limit" in f || "order_by" in f
    ensures KeyboardsByLayout(layoutId, f, v) == Err(InvalidParameter)
  {
    assert "page" !in ByLayoutFilters && "limit" !in ByLayoutFilters && "order_by" !in ByLayoutFilters;
    assert !(f.Keys <= ByLayoutFilters);
    ByLayoutOutcome(layoutId, f, v);
  }

  /** Unlike in `getKeyboards`, any switch_type value is accepted here. */
  lemma ByLayoutAnySwitchType(layoutId: int, f: Filters, v: Validators)
    requires f.Keys <= ByLayoutFilters && ByLayoutCheck(f).None?
    ensures KeyboardsByLayout(layoutId, f, v).Ok?
  {
    ByLayoutOutcome(layoutId, f, v);
  }

  /** The layout id stays bound under layout_id. */
  lemma ByLayoutBindsLayout(layoutId: int, f: Filters, v: Validators)
    requires KeyboardsByLayout(layoutId, f, v).Ok?
    ensures "layout_id" in KeyboardsByLayout(layoutId, f, v).value.args
    ensures KeyboardsByLayout(layoutId, f, v).value.args["layout_id"] == Int(layoutId)
  {
    ByLayoutOutcome(layoutId, f, v);
    ByLayoutLeavesLayout(f);
    UnionBinding(map["layout_id" := Int(layoutId)], Bindings(ByLayoutSteps, f), "layout_id");
  }

  lemma ByLayoutLeavesLayout(f: Filters)
    ensures "layout_id" !in Bindings(ByLayoutSteps, f)
  {
    BindingsKeys(ByLayoutSteps, f);
    Gather3(ByLayoutSteps, LayoutSwitchStep, PriceStep, ConnectivityStep, ArgNames);
  }

  lemma ByLayoutConsistent()
    ensures forall i :: 0 <= i < |ByLayoutSteps| ==> Consistent(ByLayoutSteps[i])
  {
    Every3(ByLayoutSteps, LayoutSwitchStep, PriceStep, ConnectivityStep, Consistent);
  }

  /** Every placeholder of the query is bound, and every binding is used. */
  lemma ByLayoutWellBound(layoutId: int, f: Filters, v: Validators)
    ensures KeyboardsByLayout(layoutId, f, v).Ok? ==> WellBound(KeyboardsByLayout(layoutId, f, v).value)
  {
    var base := Query([ByLayoutBase], map["layout_id" := Int(layoutId)]);
    ByLayoutConsistent();
    assert WellBound(base) by {
      assert [ByLayoutBase][1..] == [];
    }
    SpecWellBound(ByLayoutFilters, ByLayoutSteps, f, v, base);
  }
}
