/** The keycaps model: `findKeycapSetByLayoutId`, the keycap sets that fit a layout. */
module KeycapsModel {

  import opened Php
  import opened Errors
  import opened Sql
  import opened FilterSteps
  import opened Blocks
  import opened Tables

  /** The accepted query-string keys, page and limit among them. */
  const KeycapsFilters: set<string> := {"material", "profile", "manufacturer", "price_maximum", "page", "limit"}

  /** The base text spans four source lines; the line breaks and indentation are part of it. */
  const KeycapsBase: Fragment :=
    Placed(" SELECT keycap_sets.* FROM keycap_sets\n                JOIN keycap_compatibility ON keycap_sets.keycap_id = keycap_compatibility.keycap_id\n                JOIN layouts ON keycap_compatibility.layout_id = layouts.layout_id\n                WHERE keycap_compatibility.layout_id = ",
           "layout_id", " ")
  const MaterialFrag: Fragment := Like("keycap_sets.material", "keycap_material")
  const ProfileFrag: Fragment := Like("keycap_sets.profile", "keycap_profile")
  /** The placeholder is spelled kaycap_manufacturer; the value is bound as keycap_manufacturer. */
  const ManufacturerFrag: Fragment := Like("keycap_sets.manufacturer", "kaycap_manufacturer")
  const PriceFrag: Fragment := Compare("keycap_sets.price", "<=", "keycap_price")

  const MaterialStep := Plain("material", MaterialFrag, "keycap_material")
  const ProfileStep := Plain("profile", ProfileFrag, "keycap_profile")
  const ManufacturerStep := Plain("manufacturer", ManufacturerFrag, "keycap_manufacturer")
  const PriceStep := Numeric("price_maximum", PriceFrag, "keycap_price")

  const KeycapsSteps: seq<Step> := [MaterialStep, ProfileStep, ManufacturerStep, PriceStep]

  /** The query before any filter: the layout's keycap sets, its id bound under layout_id. */
  function KeycapsStart(layoutId: int): Query
  {
    Query([KeycapsBase], map["layout_id" := Int(layoutId)])
  }

  /** What `findKeycapSetByLayoutId` does, as a table. */
  function Keycaps(layoutId: int, f: Filters, v: Validators): Result<Query>
  {
    Spec(KeycapsFilters, KeycapsSteps, f, v, KeycapsStart(layoutId))
  }

  /** The table composed block by block, as the method runs it. */
  lemma KeycapsUnrolled(f: Filters, v: Validators, q: Query)
    ensures Run(KeycapsSteps, f, v, q)
         == Then(PriceStep, f, v, Then(ManufacturerStep, f, v, Then(ProfileStep, f, v,
            Then(MaterialStep, f, v, Ok(q)))))
  {
    RunIsThenAll(KeycapsSteps, f, v, q);
    ThenAll4(KeycapsSteps, MaterialStep, ProfileStep, ManufacturerStep, PriceStep, f, v, Ok(q));
  }

  /** findKeycapSetByLayoutId: the query handed to `paginate`, or the exception thrown. */
  method FindKeycapSetByLayoutId(layoutId: int, filters: Filters, v: Validators) returns (r: Result<Query>)
    ensures r == Keycaps(layoutId, filters, v)
  {
    if filters.Keys - KeycapsFilters != {} {
      return Err(InvalidParameter);
    }
    var q := KeycapsStart(layoutId);
    KeycapsUnrolled(filters, v, q);
    q := PlainBlock(filters, "material", MaterialFrag, "keycap_material", q);
    q := PlainBlock(filters, "profile", ProfileFrag, "keycap_profile", q);
    q := PlainBlock(filters, "manufacturer", ManufacturerFrag, "keycap_manufacturer", q);
    r := NumericBlock(filters, "price_maximum", PriceFrag, "keycap_price", q);
  }

  /** The one check of `findKeycapSetByLayoutId`. */
  function KeycapsCheck(f: Filters): Option<ErrorKind>
  {
    if Present(f, "price_maximum") && !IsNumeric(f["price_maximum"]) then Some(InvalidParameterValue) else None
  }

  lemma StepErrors(f: Filters, v: Validators)
    ensures StepError(MaterialStep, f, v) == None && StepError(ProfileStep, f, v) == None
    ensures StepError(ManufacturerStep, f, v) == None
    ensures StepError(PriceStep, f, v) == KeycapsCheck(f)
  {
  }

  /** The table throws what the written-out check says. */
  lemma KeycapsFirstError(f: Filters, v: Validators)
    ensures FirstError(KeycapsSteps, f, v) == KeycapsCheck(f)
  {
    FirstError4(KeycapsSteps, MaterialStep, ProfileStep, ManufacturerStep, PriceStep, f, v);
    StepErrors(f, v);
  }

  /** findKeycapSetByLayoutId: InvalidParameter exactly for a key outside its
      six names; else InvalidParameterValue exactly for a price_maximum that
      is not numeric; else the layout's query followed by the fragments of
      the present filters, with their bindings. */
  lemma KeycapsOutcome(layoutId: int, f: Filters, v: Validators)
    ensures Keycaps(layoutId, f, v)
         == if !(f.Keys <= KeycapsFilters) then Err(InvalidParameter)
            else if Present(f, "price_maximum") && !IsNumeric(f["price_maximum"]) then Err(InvalidParameterValue)
            else Ok(Query([KeycapsBase] + Emitted(KeycapsSteps, f),
                          map["layout_id" := Int(layoutId)] + Bindings(KeycapsSteps, f)))
    ensures Keycaps(layoutId, f, v) == Err(InvalidParameter) <==> !(f.Keys <= KeycapsFilters)
  {
    SpecOutcome(KeycapsFilters, KeycapsSteps, f, v, KeycapsStart(layoutId));
    KeycapsFirstError(f, v);
  }

  /** With a manufacturer, the text names kaycap_manufacturer, which nothing
      binds: the query is not well bound, so PDO refuses to run it. */
  lemma KeycapsManufacturerUnbound(layoutId: int, f: Filters, v: Validators)
    requires Keycaps(layoutId, f, v).Ok? && Present(f, "manufacturer")
    ensures "kaycap_manufacturer" in Placeholders(Keycaps(layoutId, f, v).value.frags)
    ensures "kaycap_manufacturer" !in Keycaps(layoutId, f, v).value.args
    ensures !WellBound(Keycaps(layoutId, f, v).value)
  {
    ManufacturerFires(f);
    SpecMentions(KeycapsFilters, KeycapsSteps, f, v, KeycapsStart(layoutId), 2);
    NothingBindsKaycap();
  }

  lemma ManufacturerFires(f: Filters)
    requires Present(f, "manufacturer")
    ensures KeycapsSteps[2] == ManufacturerStep && Fires(ManufacturerStep, f)
    ensures "kaycap_manufacturer" in ParamsOf(ManufacturerStep.frag)
  {
  }

  lemma NothingBindsKaycap()
    ensures "kaycap_manufacturer" != "layout_id" && "kaycap_manufacturer" !in Gather(KeycapsSteps, ArgNames)
  {
    Gather4(KeycapsSteps, MaterialStep, ProfileStep, ManufacturerStep, PriceStep, ArgNames);
  }

  /** Without a manufacturer, every placeholder is bound and every binding used. */
  lemma KeycapsWellBound(layoutId: int, f: Filters, v: Validators)
    requires !Present(f, "manufacturer")
    ensures Keycaps(layoutId, f, v).Ok? ==> WellBound(Keycaps(layoutId, f, v).value)
  {
    var base := KeycapsStart(layoutId);
    assert WellBound(base) by {
      assert [KeycapsBase][1..] == [];
    }
    FiringStepsConsistent(f);
    SpecWellBound(KeycapsFilters, KeycapsSteps, f, v, base);
  }

  lemma FiringStepsConsistent(f: Filters)
    requires !Present(f, "manufacturer")
    ensures forall i :: 0 <= i < |KeycapsSteps| && Fires(KeycapsSteps[i], f) ==> Consistent(KeycapsSteps[i])
  {
    assert !Fires(ManufacturerStep, f);
    Every4(KeycapsSteps, MaterialStep, ProfileStep, ManufacturerStep, PriceStep,
           s => Fires(s, f) ==> Consistent(s));
  }

  /** The layout id stays bound under layout_id: no filter binds that name. */
  lemma KeycapsBindsLayout(layoutId: int, f: Filters, v: Validators)
    requires Keycaps(layoutId, f, v).Ok?
    ensures "layout_id" in Keycaps(layoutId, f, v).value.args
    ensures Keycaps(layoutId, f, v).value.args["layout_id"] == Int(layoutId)
  {
    Gather4(KeycapsSteps, MaterialStep, ProfileStep, ManufacturerStep, PriceStep, ArgNames);
    SpecKeepsBase(KeycapsFilters, KeycapsSteps, f, v, KeycapsStart(layoutId), "layout_id");
  }

  /** page and limit pass the allow-list and no block reads them: either
      one, whatever its value, changes nothing. */
  lemma KeycapsIgnoresPaging(layoutId: int, f: Filters, key: string, v: Validators)
    requires key == "page" || key == "limit"
    ensures Keycaps(layoutId, f, v) == Keycaps(layoutId, f - {key}, v)
  {
    KeycapsReads();
    SpecIgnoresUnread(KeycapsFilters, KeycapsSteps, f, key, v, KeycapsStart(layoutId));
  }

  lemma KeycapsReads()
    ensures "page" !in ReadBy(KeycapsSteps) && "limit" !in ReadBy(KeycapsSteps)
  {
    Gather4(KeycapsSteps, MaterialStep, ProfileStep, ManufacturerStep, PriceStep, Reads);
  }

  /** No filters: the layout's query, only its id bound. */
  lemma KeycapsNoFilters(layoutId: int, v: Validators)
    ensures Keycaps(layoutId, map[], v) == Ok(KeycapsStart(layoutId))
  {
    SpecNoFilters(KeycapsFilters, KeycapsSteps, v, KeycapsStart(layoutId));
  }

  /** A known filter given a PHP-empty value is the same as that filter left out. */
  lemma KeycapsIgnoresEmpty(layoutId: int, f: Filters, key: string, v: Validators)
    requires key in f && key in KeycapsFilters && !Present(f, key)
    ensures Keycaps(layoutId, f, v) == Keycaps(layoutId, f - {key}, v)
  {
    Gather4(KeycapsSteps, MaterialStep, ProfileStep, ManufacturerStep, PriceStep, ReadsFor);
    SpecIgnoresEmpty(KeycapsFilters, KeycapsSteps, f, key, v, KeycapsStart(layoutId));
  }
}
