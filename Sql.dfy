/** A parameterised SQL query as the models hand it to `paginate` or
    `fetchSingle`: the text, grown fragment by fragment with `$sql .=`, and the
    `$args` array of named values bound to its `:name` placeholders. */
module Sql {

  /** A piece of SQL text: literal text, or a `:name` placeholder. */
  datatype Piece = Chunk(text: string) | Param(name: string)

  /** One string appended to `$sql`, split at its placeholders. */
  type Fragment = seq<Piece>

  /** A bound value: filter values stay strings; ids and coerced booleans are ints. */
  datatype Value = Str(s: string) | Int(n: int)

  datatype Query = Query(frags: seq<Fragment>, args: map<string, Value>)

  /** The SQL text of a fragment, placeholders written `:name`. */
  function Render(frag: Fragment): string
  {
    if frag == [] then ""
    else
      (match frag[0]
       case Chunk(t) => t
       case Param(n) => ":" + n)
      + Render(frag[1..])
  }

  /** The whole `$sql` string. */
  function Text(q: Query): string
  {
    RenderAll(q.frags)
  }

  function RenderAll(frags: seq<Fragment>): string
  {
    if frags == [] then "" else Render(frags[0]) + RenderAll(frags[1..])
  }

  /** The placeholder names a fragment mentions. */
  function ParamsOf(frag: Fragment): set<string>
  {
    if frag == [] then {}
    else (if frag[0].Param? then {frag[0].name} else {}) + ParamsOf(frag[1..])
  }

  /** The placeholder names the whole text mentions. */
  function Placeholders(frags: seq<Fragment>): set<string>
  {
    if frags == [] then {} else ParamsOf(frags[0]) + Placeholders(frags[1..])
  }

  lemma {:induction false} PlaceholdersAppend(a: seq<Fragment>, b: seq<Fragment>)
    ensures Placeholders(a + b) == Placeholders(a) + Placeholders(b)
  {
    if a != [] {
      assert (a + b)[1..] == a[1..] + b;
      PlaceholdersAppend(a[1..], b);
    } else {
      assert a + b == b;
    }
  }

  /** PDO executes a query with named placeholders only when every
      placeholder has a bound value and every bound value has a placeholder. */
  predicate WellBound(q: Query)
  {
    Placeholders(q.frags) == q.args.Keys
  }

  lemma OneParam(before: string, name: string, after: string)
    ensures ParamsOf([Chunk(before), Param(name), Chunk(after)]) == {name}
  {
    var frag := [Chunk(before), Param(name), Chunk(after)];
    assert ParamsOf(frag[2..]) == {} by {
      assert frag[2..][1..] == [];
    }
    assert frag[1..][1..] == frag[2..];
    assert ParamsOf(frag[1..]) == {name};
  }

  /** `<before>:<name><after>`: text around one placeholder. */
  function Placed(before: string, name: string, after: string): (frag: Fragment)
    ensures ParamsOf(frag) == {name}
  {
    OneParam(before, name, after);
    [Chunk(before), Param(name), Chunk(after)]
  }

  /** `<before>:<name>`: a fragment that ends at its placeholder. */
  function Trailing(before: string, name: string): (frag: Fragment)
    ensures ParamsOf(frag) == {name}
  {
    var frag := [Chunk(before), Param(name)];
    assert frag[1..][1..] == [];
    assert ParamsOf(frag[1..]) == {name} + {};
    frag
  }

  /** `<before>:<first><middle>:<second><after>`: text around two placeholders. */
  function TwoPlaced(before: string, first: string, middle: string, second: string, after: string): (frag: Fragment)
    ensures ParamsOf(frag) == {first, second}
  {
    var frag := [Chunk(before), Param(first), Chunk(middle), Param(second), Chunk(after)];
    assert frag[2..] == [Chunk(middle), Param(second), Chunk(after)];
    OneParam(middle, second, after);
    assert frag[1..][1..] == frag[2..];
    frag
  }

  /** `" AND <column> LIKE CONCAT('%', :<name>, '%') "`, the substring filter. */
  function Like(column: string, name: string): (frag: Fragment)
    ensures ParamsOf(frag) == {name}
  {
    Placed(" AND " + column + " LIKE CONCAT('%', ", name, ", '%') ")
  }

  /** `" AND <column> <op> :<name> "`, a comparison with one bound value. */
  function Compare(column: string, op: string, name: string): (frag: Fragment)
    ensures ParamsOf(frag) == {name}
  {
    Placed(" AND " + column + " " + op + " ", name, " ")
  }

  /** `" AND <column> BETWEEN :<lower> AND :<upper> "`. */
  function Between(column: string, lower: string, upper: string): (frag: Fragment)
    ensures ParamsOf(frag) == {lower, upper}
  {
    TwoPlaced(" AND " + column + " BETWEEN ", lower, " AND ", upper, " ")
  }

  /** `" SELECT * FROM <table> WHERE <column> = :<column> "` with the id bound
      under `<column>`: the query each `find...ById` hands to `fetchSingle`. */
  function SelectById(table: string, column: string, id: int): (q: Query)
    ensures WellBound(q)
    ensures q.args == map[column := Int(id)]
    ensures Text(q) == " SELECT * FROM " + table + " WHERE " + column + " = :" + column + " "
  {
    var frag := [Chunk(" SELECT * FROM " + table + " WHERE " + column + " = "), Param(column), Chunk(" ")];
    OneParam(" SELECT * FROM " + table + " WHERE " + column + " = ", column, " ");
    assert [frag][1..] == [];
    assert Render(frag[2..]) == " " by {
      assert frag[2..][1..] == [];
    }
    assert Render(frag[1..]) == ":" + column + " " by {
      assert frag[1..][1..] == frag[2..];
    }
    assert RenderAll([frag]) == Render(frag) + "";
    Query([frag], map[column := Int(id)])
  }
}
