/** The buttons model: `findButtonsByMouseId`, the buttons of one mouse. */
module ButtonsModel {

  import opened Php
  import opened Errors
  import opened Sql
  import opened FilterSteps
  import opened Blocks
  import opened Tables

  /** The accepted query-string keys. page and limit are not among them. */
  const ButtonsFilters: set<string> := {"name", "programmable", "name_contains"}

  const ContainsFrag: Fragment := Like("name", "buttons_name")
  const NameFrag: Fragment := Compare("name", "=", "buttons_name")
  const ProgrammableFrag: Fragment := Compare("programmable", "=", "programmable")

  /** name_contains and name may not be given together. */
  const NamesStep := Exclusive("name_contains", "name")
  /** Both name filters bind buttons_name. */
  const ContainsStep := Plain("name_contains", ContainsFrag, "buttons_name")
  const NameStep := Plain("name", NameFrag, "buttons_name")
  const ProgrammableStep := Flag("programmable", ProgrammableFrag, "programmable")

  const ButtonsSteps: seq<Step> := [NamesStep, ContainsStep, NameStep, ProgrammableStep]

  /** The query before any filter: the mouse's buttons, its id bound under mouse_id. */
  function ButtonsBase(mouseId: int): (q: Query)
    ensures WellBound(q) && q.args == map["mouse_id" := Int(mouseId)]
  {
    SelectById("mouse_buttons", "mouse_id", mouseId)
  }

  /** What `findButtonsByMouseId` does, as a table. */
  function Buttons(mouseId: int, f: Filters, v: Validators): Result<Query>
  {
    Spec(ButtonsFilters, ButtonsSteps, f, v, ButtonsBase(mouseId))
  }

  /** The table composed block by block, as the method runs it. */
  lemma ButtonsUnrolled(f: Filters, v: Validators, q: Query)
    ensures Run(ButtonsSteps, f, v, q)
         == Then(ProgrammableStep, f, v, Then(NameStep, f, v, Then(ContainsStep, f, v,
            Then(NamesStep, f, v, Ok(q)))))
  {
    RunIsThenAll(ButtonsSteps, f, v, q);
    ThenAll4(ButtonsSteps, NamesStep, ContainsStep, NameStep, ProgrammableStep, f, v, Ok(q));
  }

  /** findButtonsByMouseId: the query handed to `paginate`, or the exception thrown. */
  method FindButtonsByMouseId(mouseId: int, filters: Filters, v: Validators) returns (r: Result<Query>)
    ensures r == Buttons(mouseId, filters, v)
  {
    if filters.Keys - ButtonsFilters != {} {
      return Err(InvalidParameter);
    }
    var q := ButtonsBase(mouseId);
    ButtonsUnrolled(filters, v, q);
    r := ExclusiveBlock(filters, "name_contains", "name", q);
    if r.Err? { return; }
    q := PlainBlock(filters, "name_contains", ContainsFrag, "buttons_name", r.value);
    q := PlainBlock(filters, "name", NameFrag, "buttons_name", q);
    q := FlagBlock(filters, "programmable", ProgrammableFrag, "programmable", q);
    return Ok(q);
  }

  /** The one check of `findButtonsByMouseId`. */
  function ButtonsCheck(f: Filters): Option<ErrorKind>
  {
    if Present(f, "name_contains") && Present(f, "name") then Some(TooManyParameters) else None
  }

  lemma StepErrors(f: Filters, v: Validators)
    ensures StepError(NamesStep, f, v) == ButtonsCheck(f)
    ensures StepError(ContainsStep, f, v) == None && StepError(NameStep, f, v) == None
    ensures StepError(ProgrammableStep, f, v) == None
  {
  }

  /** The table throws what the written-out check says. */
  lemma ButtonsFirstError(f: Filters, v: Validators)
    ensures FirstError(ButtonsSteps, f, v) == ButtonsCheck(f)
  {
    FirstError4(ButtonsSteps, NamesStep, ContainsStep, NameStep, ProgrammableStep, f, v);
    StepErrors(f, v);
  }

  /** findButtonsByMouseId: InvalidParameter exactly for a key outside its
      three names; else TooManyParameters exactly when both name filters are
      given; else the mouse's query followed by the fragments of the present
      filters, with their bindings. */
  lemma ButtonsOutcome(mouseId: int, f: Filters, v: Validators)
    ensures Buttons(mouseId, f, v)
         == if !(f.Keys <= ButtonsFilters) then Err(InvalidParameter)
            else if Present(f, "name_contains") && Present(f, "name") then Err(TooManyParameters)
            else Ok(Query(ButtonsBase(mouseId).frags + Emitted(ButtonsSteps, f),
                          map["mouse_id" := Int(mouseId)] + Bindings(ButtonsSteps, f)))
    ensures Buttons(mouseId, f, v) == Err(InvalidParameter) <==> !(f.Keys <= ButtonsFilters)
  {
    SpecOutcome(ButtonsFilters, ButtonsSteps, f, v, ButtonsBase(mouseId));
    ButtonsFirstError(f, v);
  }

  /** page, limit and order_by are not accepted: each is an InvalidParameter. */
  lemma ButtonsUnknownKey(mouseId: int, f: Filters, v: Validators)
    requires "page" in f || "limit" in f || "order_by" in f
    ensures Buttons(mouseId, f, v) == Err(InvalidParameter)
  {
    assert "page" !in ButtonsFilters && "limit" !in ButtonsFilters && "order_by" !in ButtonsFilters;
    assert !(f.Keys <= ButtonsFilters);
    ButtonsOutcome(mouseId, f, v);
  }

  /** buttons_name holds whichever of the two name filters was given. */
  lemma ButtonsNameBinding(mouseId: int, f: Filters, v: Validators)
    requires Buttons(mouseId, f, v).Ok? && (Present(f, "name_contains") || Present(f, "name"))
    ensures "buttons_name" in Buttons(mouseId, f, v).value.args
    ensures Buttons(mouseId, f, v).value.args["buttons_name"]
         == Str(if Present(f, "name") then f["name"] else f["name_contains"])
  {
    ButtonsOutcome(mouseId, f, v);
    NameBindings(f);
    UnionBinding(map["mouse_id" := Int(mouseId)], Bindings(ButtonsSteps, f), "buttons_name");
  }

  /** The bindings of the table, when only one name filter is given. */
  lemma NameBindings(f: Filters)
    requires Present(f, "name_contains") != Present(f, "name")
    ensures "buttons_name" in Bindings(ButtonsSteps, f)
    ensures Bindings(ButtonsSteps, f)["buttons_name"]
         == Str(if Present(f, "name") then f["name"] else f["name_contains"])
  {
    Bindings4(ButtonsSteps, NamesStep, ContainsStep, NameStep, ProgrammableStep, f);
    var k := "buttons_name";
    var last := StepArgs(ProgrammableStep, f);
    assert k !in last;
    var tail := StepArgs(NameStep, f) + last;
    var mid := StepArgs(ContainsStep, f) + tail;
    if Present(f, "name") {
      assert k in StepArgs(NameStep, f) && StepArgs(NameStep, f)[k] == Str(f["name"]);
      UnionBinding(StepArgs(NameStep, f), last, k);
      UnionBinding(StepArgs(ContainsStep, f), tail, k);
    } else {
      assert StepArgs(NameStep, f) == map[];
      assert k in StepArgs(ContainsStep, f) && StepArgs(ContainsStep, f)[k] == Str(f["name_contains"]);
      assert k !in tail;
      UnionBinding(StepArgs(ContainsStep, f), tail, k);
    }
    assert StepArgs(NamesStep, f) == map[];
    UnionBinding(StepArgs(NamesStep, f), mid, k);
  }

  /** programmable is bound as 1 when `filter_var` reads it as true, else 0. */
  lemma ButtonsProgrammable(mouseId: int, f: Filters, v: Validators)
    requires Buttons(mouseId, f, v).Ok? && Present(f, "programmable")
    ensures "programmable" in Buttons(mouseId, f, v).value.args
    ensures Buttons(mouseId, f, v).value.args["programmable"] == Int(if FilterBool(f["programmable"]) then 1 else 0)
  {
    ProgrammableBinding(f);
    SpecBindingWins(ButtonsFilters, ButtonsSteps, f, v, ButtonsBase(mouseId), 3, "programmable");
  }

  lemma ProgrammableBinding(f: Filters)
    requires Present(f, "programmable")
    ensures ButtonsSteps[3] == ProgrammableStep && ButtonsSteps[4..] == []
    ensures "programmable" in StepArgs(ProgrammableStep, f)
    ensures StepArgs(ProgrammableStep, f)["programmable"] == Int(if FilterBool(f["programmable"]) then 1 else 0)
  {
  }

  /** The mouse id stays bound under mouse_id: no filter binds that name. */
  lemma ButtonsBindsMouse(mouseId: int, f: Filters, v: Validators)
    requires Buttons(mouseId, f, v).Ok?
    ensures "mouse_id" in Buttons(mouseId, f, v).value.args
    ensures Buttons(mouseId, f, v).value.args["mouse_id"] == Int(mouseId)
  {
    Gather4(ButtonsSteps, NamesStep, ContainsStep, NameStep, ProgrammableStep, ArgNames);
    SpecKeepsBase(ButtonsFilters, ButtonsSteps, f, v, ButtonsBase(mouseId), "mouse_id");
  }

  lemma ButtonsConsistent()
    ensures forall i :: 0 <= i < |ButtonsSteps| ==> Consistent(ButtonsSteps[i])
  {
    Every4(ButtonsSteps, NamesStep, ContainsStep, NameStep, ProgrammableStep, Consistent);
  }

  /** Every placeholder of the query is bound, and every binding is used. */
  lemma ButtonsWellBound(mouseId: int, f: Filters, v: Validators)
    ensures Buttons(mouseId, f, v).Ok? ==> WellBound(Buttons(mouseId, f, v).value)
  {
    ButtonsConsistent();
    SpecWellBound(ButtonsFilters, ButtonsSteps, f, v, ButtonsBase(mouseId));
  }

  /** No filters: the mouse's query, only its id bound. */
  lemma ButtonsNoFilters(mouseId: int, v: Validators)
    ensures Buttons(mouseId, map[], v) == Ok(ButtonsBase(mouseId))
  {
    SpecNoFilters(ButtonsFilters, ButtonsSteps, v, ButtonsBase(mouseId));
  }

  /** A known filter given a PHP-empty value is the same as that filter left out. */
  lemma ButtonsIgnoresEmpty(mouseId: int, f: Filters, key: string, v: Validators)
    requires key in f && key in ButtonsFilters && !Present(f, key)
    ensures Buttons(mouseId, f, v) == Buttons(mouseId, f - {key}, v)
  {
    Gather4(ButtonsSteps, NamesStep, ContainsStep, NameStep, ProgrammableStep, ReadsFor);
    SpecIgnoresEmpty(ButtonsFilters, ButtonsSteps, f, key, v, ButtonsBase(mouseId));
  }
}
