/** The guarded blocks the model methods are written in. Each list method
    of a model builds its query with a straight run of these blocks: it
    grows `$sql` with `.=` and writes `$args[...]` when the guarding filter
    is present, and throws when the filter's value is refused. Each block
    below is that code for one kind of filter, with the keys, SQL and
    argument names as parameters, proved to do what `Then` says its step
    does. */
module Blocks {

  import opened Php
  import opened Errors
  import opened Sql
  import opened FilterSteps

  /** A filter appended and bound as given: the `LIKE CONCAT('%', ..., '%')`
      and `=` filters. */
  method PlainBlock(f: Filters, key: string, frag: Fragment, arg: string, q: Query)
    returns (r: Query)
    ensures forall v :: Ok(r) == Then(Plain(key, frag, arg), f, v, Ok(q))
    ensures Present(f, key) <==> |r.frags| == |q.frags| + 1
  {
    var sql, args := q.frags, q.args;
    if Present(f, key) {
      sql := sql + [frag];
      args := args[arg := Str(f[key])];
    }
    return Query(sql, args);
  }

  /** A filter whose value must be one of `allowed` (strict `in_array`). */
  method OneOfBlock(f: Filters, key: string, allowed: seq<string>, frag: Fragment, arg: string, q: Query)
    returns (r: Result<Query>)
    ensures forall v :: r == Then(OneOf(key, allowed, frag, arg), f, v, Ok(q))
    ensures r.Err? <==> Present(f, key) && f[key] !in allowed
  {
    var sql, args := q.frags, q.args;
    if Present(f, key) {
      if f[key] !in allowed {
        return Err(InvalidParameterValue);
      }
      sql := sql + [frag];
      args := args[arg := Str(f[key])];
    }
    return Ok(Query(sql, args));
  }

  /** A filter whose value must be `is_numeric`. */
  method NumericBlock(f: Filters, key: string, frag: Fragment, arg: string, q: Query)
    returns (r: Result<Query>)
    ensures forall v :: r == Then(Numeric(key, frag, arg), f, v, Ok(q))
    ensures r.Err? <==> Present(f, key) && !IsNumeric(f[key])
  {
    var sql, args := q.frags, q.args;
    if Present(f, key) {
      if IsNumeric(f[key]) {
        sql := sql + [frag];
        args := args[arg := Str(f[key])];
      } else {
        return Err(InvalidParameterValue);
      }
    }
    return Ok(Query(sql, args));
  }

  /** A boolean filter, read with `filter_var(..., FILTER_VALIDATE_BOOLEAN)`
      and bound as 1 or 0. */
  method FlagBlock(f: Filters, key: string, frag: Fragment, arg: string, q: Query)
    returns (r: Query)
    ensures forall v :: Ok(r) == Then(Flag(key, frag, arg), f, v, Ok(q))
    ensures Present(f, key) ==> r.args[arg] == Int(if FilterBool(f[key]) then 1 else 0)
  {
    var sql, args := q.frags, q.args;
    if Present(f, key) {
      var b := FilterBool(f[key]);
      sql := sql + [frag];
      args := args[arg := Int(if b then 1 else 0)];
    }
    return Query(sql, args);
  }

  /** A year filter: `validateYear` is applied to the value of `checked`,
      which is `key` itself except where the source checks another filter. */
  method YearBlock(f: Filters, v: Validators, key: string, checked: string, frag: Fragment, arg: string, q: Query)
    returns (r: Result<Query>)
    ensures r == Then(Year(key, checked, frag, arg), f, v, Ok(q))
    ensures r.Err? <==> Present(f, key) && !v.year(Lookup(f, checked))
  {
    var sql, args := q.frags, q.args;
    if Present(f, key) {
      if v.year(Lookup(f, checked)) {
        sql := sql + [frag];
        args := args[arg := Str(f[key])];
      } else {
        return Err(InvalidParameterValue);
      }
    }
    return Ok(Query(sql, args));
  }

  /** A pair of bounds: each needs the other, then both pass `check`. */
  method RangeBlock(f: Filters, v: Validators, lower: string, upper: string, check: BoundsCheck,
                    frag: Fragment, lowerArg: string, upperArg: string, q: Query)
    returns (r: Result<Query>)
    ensures r == Then(Range(lower, upper, check, frag, lowerArg, upperArg), f, v, Ok(q))
    ensures r == Err(RangeFilter) <==> Present(f, lower) != Present(f, upper)
  {
    var sql, args := q.frags, q.args;
    if Present(f, lower) {
      if !Present(f, upper) {
        return Err(RangeFilter);
      }
      if BoundsHold(check, f[lower], f[upper], v) {
        sql := sql + [frag];
        args := args[lowerArg := Str(f[lower])];
        args := args[upperArg := Str(f[upper])];
      } else {
        return Err(BoundsError(check));
      }
    } else if Present(f, upper) {
      return Err(RangeFilter);
    }
    return Ok(Query(sql, args));
  }

  /** Two filters that may not be used together. */
  method ExclusiveBlock(f: Filters, first: string, second: string, q: Query)
    returns (r: Result<Query>)
    ensures forall v :: r == Then(Exclusive(first, second), f, v, Ok(q))
    ensures r.Err? <==> Present(f, first) && Present(f, second)
  {
    if Present(f, first) && Present(f, second) {
      return Err(TooManyParameters);
    }
    return Ok(q);
  }
}
