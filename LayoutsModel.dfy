/** The layouts model: `getLayouts`, which accepts no filter at all, and
    `findLayoutById`. */
module LayoutsModel {

  import opened Php
  import opened Errors
  import opened Sql
  import opened FilterSteps

  /** The accepted query-string keys: none, so not even page or limit. */
  const LayoutsFilters: set<string> := {}

  const LayoutsText := " SELECT * FROM layouts WHERE 1 "

  /** The one query `getLayouts` ever builds: every layout, nothing bound. */
  const LayoutsQuery: Query := Query([[Chunk(LayoutsText)]], map[])

  /** getLayouts: the query handed to `paginate`, or the exception thrown.
      Any key at all is an InvalidParameter; there is no other error, and
      the query never depends on the filters. */
  function GetLayouts(f: Filters): (r: Result<Query>)
    ensures r.Err? <==> f.Keys != {}
    ensures r.Err? ==> r.error == InvalidParameter
    ensures r.Ok? ==> Text(r.value) == LayoutsText && r.value.args == map[] && WellBound(r.value)
  {
    if f.Keys - LayoutsFilters != {} then Err(InvalidParameter)
    else
      assert f.Keys - LayoutsFilters == f.Keys;
      LayoutsQueryText();
      Ok(LayoutsQuery)
  }

  lemma LayoutsQueryText()
    ensures Text(LayoutsQuery) == LayoutsText && WellBound(LayoutsQuery)
  {
    var frag: Fragment := [Chunk(LayoutsText)];
    assert frag[1..] == [];
    assert Render(frag) == LayoutsText + Render([]);
    assert ParamsOf(frag) == {} + ParamsOf([]);
    var frags := [frag];
    assert frags[1..] == [];
    assert RenderAll(frags) == Render(frag) + RenderAll([]);
    assert Placeholders(frags) == ParamsOf(frag) + Placeholders([]);
  }

  /** getLayouts is the table form with the empty allow-list and no steps. */
  lemma LayoutsIsSpec(f: Filters, v: Validators)
    ensures GetLayouts(f) == Spec(LayoutsFilters, [], f, v, LayoutsQuery)
  {
    SpecOutcome(LayoutsFilters, [], f, v, LayoutsQuery);
    assert LayoutsQuery.frags + [] == LayoutsQuery.frags;
    assert LayoutsQuery.args + map[] == LayoutsQuery.args;
  }

  /** page and limit are keys like any other: either one, with any value,
      is an InvalidParameter. */
  lemma LayoutsRejectsPaging(f: Filters)
    requires "page" in f || "limit" in f
    ensures GetLayouts(f) == Err(InvalidParameter)
  {
    assert f.Keys != {};
  }

  /** findLayoutById: the query handed to `fetchSingle`. */
  function LayoutById(layoutId: int): (q: Query)
    ensures WellBound(q) && q.args == map["layout_id" := Int(layoutId)]
  {
    SelectById("layouts", "layout_id", layoutId)
  }
}
