/** A reference semantics for the model methods: each list endpoint is a
    fixed allow-list plus a fixed table of filter steps, and a request is the
    steps run in table order over the base query, stopping at the first step
    that throws. The model methods themselves (one module per model class)
    are straight-line code proved equal to `Spec` over their table. */
module FilterSteps {

  import opened Php
  import opened Errors
  import opened Sql

  /** The base model's validateDate and validateYear, whose bodies are not
      part of this model. validateYear is applied to a possibly missing value
      (see `Year`). */
  datatype Validators = Validators(date: string -> bool, year: Option<string> -> bool)

  /** What a paired range checks once both halves are present. */
  datatype BoundsCheck = Unchecked | NumericBounds | DateBounds

  /** One guarded block of a model method. Every step but `Exclusive` is
      guarded by `!empty($filters[key])` (for `Range`, the lower key). */
  datatype Step =
      /** Append `frag`, bind the value under `arg`. */
    | Plain(key: string, frag: Fragment, arg: string)
      /** Strict `in_array` against `allowed`, else InvalidParameterValue. */
    | OneOf(key: string, allowed: seq<string>, frag: Fragment, arg: string)
      /** `is_numeric`, else InvalidParameterValue. */
    | Numeric(key: string, frag: Fragment, arg: string)
      /** Never throws; binds 1 when `filter_var` reads the value as true, else 0. */
    | Flag(key: string, frag: Fragment, arg: string)
      /** `validateYear($filters[checked])`, else InvalidParameterValue; binds
          the value of `key`. */
    | Year(key: string, checked: string, frag: Fragment, arg: string)
      /** Lower without upper, or upper without lower: RangeFilter; both:
          `check`, then bind both. */
    | Range(lower: string, upper: string, check: BoundsCheck, frag: Fragment, lowerArg: string, upperArg: string)
      /** Both present: TooManyParameters. Appends nothing. */
    | Exclusive(first: string, second: string)

  /** `$filters[$key]` where the guard has established that it is set. */
  function ValueOf(f: Filters, key: string): string
  {
    if key in f then f[key] else ""
  }

  predicate BoundsHold(check: BoundsCheck, lo: string, hi: string, v: Validators)
  {
    match check
    case Unchecked => true
    case NumericBounds => IsNumeric(lo) && IsNumeric(hi)
    case DateBounds => v.date(lo) && v.date(hi)
  }

  function BoundsError(check: BoundsCheck): ErrorKind
  {
    if check == DateBounds then InvalidDate else InvalidParameterValue
  }

  /** The exception a step throws, if any. It depends on the filters only,
      never on what earlier steps appended. */
  function StepError(s: Step, f: Filters, v: Validators): Option<ErrorKind>
  {
    match s
    case Plain(_, _, _) => None
    case Flag(_, _, _) => None
    case OneOf(k, allowed, _, _) =>
      if Present(f, k) && f[k] !in allowed then Some(InvalidParameterValue) else None
    case Numeric(k, _, _) =>
      if Present(f, k) && !IsNumeric(f[k]) then Some(InvalidParameterValue) else None
    case Year(k, checked, _, _) =>
      if Present(f, k) && !v.year(Lookup(f, checked)) then Some(InvalidParameterValue) else None
    case Range(lo, hi, check, _, _, _) =>
      if Present(f, lo) then
        if !Present(f, hi) then Some(RangeFilter)
        else if !BoundsHold(check, f[lo], f[hi], v) then Some(BoundsError(check))
        else None
      else if Present(f, hi) then Some(RangeFilter)
      else None
    case Exclusive(a, b) =>
      if Present(f, a) && Present(f, b) then Some(TooManyParameters) else None
  }

  /** Whether a step that does not throw appends its fragment. */
  predicate Fires(s: Step, f: Filters)
  {
    match s
    case Range(lo, _, _, _, _, _) => Present(f, lo)
    case Exclusive(_, _) => false
    case _ => Present(f, s.key)
  }

  function StepFrags(s: Step, f: Filters): seq<Fragment>
  {
    if Fires(s, f) then [s.frag] else []
  }

  /** The names a step binds when it fires. */
  function ArgNames(s: Step): set<string>
  {
    match s
    case Range(_, _, _, _, la, ua) => {la, ua}
    case Exclusive(_, _) => {}
    case _ => {s.arg}
  }

  function StepArgs(s: Step, f: Filters): (m: map<string, Value>)
    ensures m.Keys == if Fires(s, f) then ArgNames(s) else {}
  {
    if !Fires(s, f) then map[]
    else
      match s
      case Plain(k, _, a) => map[a := Str(ValueOf(f, k))]
      case OneOf(k, _, _, a) => map[a := Str(ValueOf(f, k))]
      case Numeric(k, _, a) => map[a := Str(ValueOf(f, k))]
      case Year(k, _, _, a) => map[a := Str(ValueOf(f, k))]
      case Flag(k, _, a) => map[a := Int(if FilterBool(ValueOf(f, k)) then 1 else 0)]
      case Range(lo, hi, _, _, la, ua) => map[la := Str(ValueOf(f, lo)), ua := Str(ValueOf(f, hi))]
      case Exclusive(_, _) => map[]
  }

  /** One step that did not throw, applied to the query so far: `$sql .=`
      and `$args[...] =` when it fires, nothing otherwise. */
  function Apply(s: Step, f: Filters, q: Query): Query
  {
    if !Fires(s, f) then q
    else
      var args :=
        match s
        case Plain(k, _, a) => q.args[a := Str(ValueOf(f, k))]
        case OneOf(k, _, _, a) => q.args[a := Str(ValueOf(f, k))]
        case Numeric(k, _, a) => q.args[a := Str(ValueOf(f, k))]
        case Year(k, _, _, a) => q.args[a := Str(ValueOf(f, k))]
        case Flag(k, _, a) => q.args[a := Int(if FilterBool(ValueOf(f, k)) then 1 else 0)]
        case Range(lo, hi, _, _, la, ua) => q.args[la := Str(ValueOf(f, lo))][ua := Str(ValueOf(f, hi))]
        case Exclusive(_, _) => q.args;
      Query(q.frags + [s.frag], args)
  }

  /** `Apply` appends the step's fragments and adds its bindings. */
  lemma ApplyAppends(s: Step, f: Filters, q: Query)
    ensures Apply(s, f, q) == Query(q.frags + StepFrags(s, f), q.args + StepArgs(s, f))
  {
    if Fires(s, f) {
      assert Apply(s, f, q).args == q.args + StepArgs(s, f);
    }
  }

  /** The steps in order: the first to throw ends the run. */
  function Run(steps: seq<Step>, f: Filters, v: Validators, q: Query): Result<Query>
  {
    if steps == [] then Ok(q)
    else
      match StepError(steps[0], f, v)
      case Some(e) => Err(e)
      case None => Run(steps[1..], f, v, Apply(steps[0], f, q))
  }

  /** A whole list method: the `array_diff` allow-list check, then the steps. */
  function Spec(allowed: set<string>, steps: seq<Step>, f: Filters, v: Validators, base: Query): Result<Query>
  {
    if f.Keys - allowed != {} then Err(InvalidParameter) else Run(steps, f, v, base)
  }

  /** One step after a possibly failed prefix: an exception already thrown
      stays thrown. Composing `Then` over a table gives `Run` (`RunIsThenAll`),
      which is how each model method's straight-line blocks are matched to
      its table. */
  function Then(s: Step, f: Filters, v: Validators, r: Result<Query>): Result<Query>
  {
    if r.Err? then r
    else match StepError(s, f, v)
      case Some(e) => Err(e)
      case None => Ok(Apply(s, f, r.value))
  }

  function ThenAll(steps: seq<Step>, f: Filters, v: Validators, r: Result<Query>): Result<Query>
  {
    if steps == [] then r else ThenAll(steps[1..], f, v, Then(steps[0], f, v, r))
  }

  lemma {:induction false} ThenAllErr(steps: seq<Step>, f: Filters, v: Validators, e: ErrorKind)
    ensures ThenAll(steps, f, v, Err(e)) == Err(e)
  {
    if steps != [] {
      ThenAllErr(steps[1..], f, v, e);
    }
  }

  lemma {:induction false} RunIsThenAll(steps: seq<Step>, f: Filters, v: Validators, q: Query)
    ensures Run(steps, f, v, q) == ThenAll(steps, f, v, Ok(q))
  {
    if steps != [] {
      match StepError(steps[0], f, v)
      case Some(e) => ThenAllErr(steps[1..], f, v, e);
      case None => RunIsThenAll(steps[1..], f, v, Apply(steps[0], f, q));
    }
  }

  // ---------------------------------------------------------------------
  // The declarative reading of Run.

  /** `a`, unless it is None. */
  function OrElse(a: Option<ErrorKind>, b: Option<ErrorKind>): Option<ErrorKind>
  {
    if a.Some? then a else b
  }

  /** The exception of the first step that throws, if any. */
  function FirstError(steps: seq<Step>, f: Filters, v: Validators): Option<ErrorKind>
  {
    if steps == [] then None else OrElse(StepError(steps[0], f, v), FirstError(steps[1..], f, v))
  }

  /** The fragments the firing steps append, in table order. */
  function Emitted(steps: seq<Step>, f: Filters): seq<Fragment>
  {
    if steps == [] then [] else StepFrags(steps[0], f) + Emitted(steps[1..], f)
  }

  /** The bindings of the firing steps; a later step's binding of a name wins. */
  function Bindings(steps: seq<Step>, f: Filters): map<string, Value>
  {
    if steps == [] then map[] else StepArgs(steps[0], f) + Bindings(steps[1..], f)
  }

  lemma EmptyUnion<K, V>(m: map<K, V>)
    ensures map[] + m == m
  {
  }

  lemma MapUnionAssoc<K, V>(a: map<K, V>, b: map<K, V>, c: map<K, V>)
    ensures (a + b) + c == a + (b + c)
  {
  }

  /** A table binds only names its steps bind. */
  lemma {:induction false} BindingsKeys(steps: seq<Step>, f: Filters)
    ensures Bindings(steps, f).Keys <= Gather(steps, ArgNames)
  {
    if steps != [] {
      BindingsKeys(steps[1..], f);
    }
  }

  /** In a union the right operand's binding wins; a name only the left
      operand binds keeps its value. */
  lemma UnionBinding<K, V>(a: map<K, V>, b: map<K, V>, k: K)
    requires k in a || k in b
    ensures k in a + b
    ensures (a + b)[k] == if k in b then b[k] else a[k]
  {
  }

  /** A name bound by step `i` and by no later step keeps step `i`'s value. */
  lemma {:induction false} BindingWins(steps: seq<Step>, i: nat, f: Filters, k: string)
    requires i < |steps| && k in StepArgs(steps[i], f)
    requires k !in Gather(steps[i + 1..], ArgNames)
    ensures k in Bindings(steps, f) && Bindings(steps, f)[k] == StepArgs(steps[i], f)[k]
  {
    var rest := steps[1..];
    if i == 0 {
      BindingsKeys(rest, f);
    } else {
      assert rest[i - 1] == steps[i] && rest[i..] == steps[i + 1..];
      BindingWins(rest, i - 1, f, k);
    }
    UnionBinding(StepArgs(steps[0], f), Bindings(rest, f), k);
  }

  /** A run throws the first exception a step throws; if none does, it
      returns the query followed by the emitted fragments, with the bindings
      added. */
  lemma {:induction false} RunOutcome(steps: seq<Step>, f: Filters, v: Validators, q: Query)
    ensures Run(steps, f, v, q)
         == if FirstError(steps, f, v).Some? then Err(FirstError(steps, f, v).value)
            else Ok(Query(q.frags + Emitted(steps, f), q.args + Bindings(steps, f)))
  {
    if steps != [] {
      var s := steps[0];
      RunOutcome(steps[1..], f, v, Apply(s, f, q));
      ApplyThenRest(steps, f, q);
    } else {
      assert q.frags + [] == q.frags;
      assert q.args + map[] == q.args;
    }
  }

  /** Applying the first step, then adding what the rest emits and binds, is
      adding what the whole table emits and binds. */
  lemma ApplyThenRest(steps: seq<Step>, f: Filters, q: Query)
    requires steps != []
    ensures Apply(steps[0], f, q).frags + Emitted(steps[1..], f) == q.frags + Emitted(steps, f)
    ensures Apply(steps[0], f, q).args + Bindings(steps[1..], f) == q.args + Bindings(steps, f)
  {
    ApplyAppends(steps[0], f, q);
    FragsThenRest(steps, f, q.frags);
    ArgsThenRest(steps, f, q.args);
  }

  lemma FragsThenRest(steps: seq<Step>, f: Filters, frags: seq<Fragment>)
    requires steps != []
    ensures (frags + StepFrags(steps[0], f)) + Emitted(steps[1..], f) == frags + Emitted(steps, f)
  {
    SeqAssoc(frags, StepFrags(steps[0], f), Emitted(steps[1..], f));
  }

  lemma SeqAssoc<T>(a: seq<T>, b: seq<T>, c: seq<T>)
    ensures (a + b) + c == a + (b + c)
  {
  }

  lemma ArgsThenRest(steps: seq<Step>, f: Filters, args: map<string, Value>)
    requires steps != []
    ensures (args + StepArgs(steps[0], f)) + Bindings(steps[1..], f) == args + Bindings(steps, f)
  {
    MapUnionAssoc(args, StepArgs(steps[0], f), Bindings(steps[1..], f));
  }

  /** No step throws InvalidParameter: the allow-list check is its only source. */
  lemma {:induction false} NeverInvalidParameter(steps: seq<Step>, f: Filters, v: Validators)
    ensures FirstError(steps, f, v) != Some(InvalidParameter)
  {
    if steps != [] {
      NeverInvalidParameter(steps[1..], f, v);
    }
  }

  /** No step throws the controllers' exceptions, InvalidId or Pagination. */
  lemma {:induction false} FilterErrorsOnly(steps: seq<Step>, f: Filters, v: Validators)
    ensures FirstError(steps, f, v) != Some(InvalidId)
    ensures FirstError(steps, f, v) != Some(Pagination)
  {
    if steps != [] {
      FilterErrorsOnly(steps[1..], f, v);
    }
  }

  /** A list method throws neither InvalidId nor Pagination: in a handler,
      those come from the controller alone. */
  lemma SpecFilterErrorsOnly(allowed: set<string>, steps: seq<Step>, f: Filters, v: Validators, base: Query)
    ensures Spec(allowed, steps, f, v, base) != Err(InvalidId)
    ensures Spec(allowed, steps, f, v, base) != Err(Pagination)
  {
    SpecOutcome(allowed, steps, f, v, base);
    FilterErrorsOnly(steps, f, v);
  }

  /** A whole list method: InvalidParameter exactly for a key outside the
      allow-list; otherwise the first exception a step throws; otherwise the
      base query with the emitted fragments and bindings. */
  lemma SpecOutcome(allowed: set<string>, steps: seq<Step>, f: Filters, v: Validators, base: Query)
    ensures Spec(allowed, steps, f, v, base)
         == if !(f.Keys <= allowed) then Err(InvalidParameter)
            else if FirstError(steps, f, v).Some? then Err(FirstError(steps, f, v).value)
            else Ok(Query(base.frags + Emitted(steps, f), base.args + Bindings(steps, f)))
    ensures Spec(allowed, steps, f, v, base) == Err(InvalidParameter) <==> !(f.Keys <= allowed)
  {
    RunOutcome(steps, f, v, base);
    NeverInvalidParameter(steps, f, v);
    assert f.Keys - allowed != {} <==> !(f.Keys <= allowed) by {
      if f.Keys - allowed == {} {
        forall k | k in f.Keys ensures k in allowed {
          assert k !in f.Keys - allowed;
        }
      }
    }
  }

  /** A list method that returns a query returns the base query followed by
      the emitted fragments, with the bindings added. */
  lemma SpecOk(allowed: set<string>, steps: seq<Step>, f: Filters, v: Validators, base: Query)
    requires Spec(allowed, steps, f, v, base).Ok?
    ensures Spec(allowed, steps, f, v, base).value
         == Query(base.frags + Emitted(steps, f), base.args + Bindings(steps, f))
  {
    RunOutcome(steps, f, v, base);
  }

  /** The same for the query a list method returns: a name bound by step
      `i` and by no later step is bound to step `i`'s value. */
  lemma SpecBindingWins(allowed: set<string>, steps: seq<Step>, f: Filters, v: Validators, base: Query,
                        i: nat, k: string)
    requires Spec(allowed, steps, f, v, base).Ok?
    requires i < |steps| && k in StepArgs(steps[i], f)
    requires k !in Gather(steps[i + 1..], ArgNames)
    ensures k in Spec(allowed, steps, f, v, base).value.args
    ensures Spec(allowed, steps, f, v, base).value.args[k] == StepArgs(steps[i], f)[k]
  {
    SpecOk(allowed, steps, f, v, base);
    BindingWins(steps, i, f, k);
    UnionBinding(base.args, Bindings(steps, f), k);
  }

  /** A name of the base query that no step binds keeps its base value. */
  lemma SpecKeepsBase(allowed: set<string>, steps: seq<Step>, f: Filters, v: Validators, base: Query, k: string)
    requires Spec(allowed, steps, f, v, base).Ok?
    requires k in base.args && k !in Gather(steps, ArgNames)
    ensures k in Spec(allowed, steps, f, v, base).value.args
    ensures Spec(allowed, steps, f, v, base).value.args[k] == base.args[k]
  {
    SpecOk(allowed, steps, f, v, base);
    BindingsKeys(steps, f);
    UnionBinding(base.args, Bindings(steps, f), k);
  }

  /** With no filters nothing throws and nothing is appended. */
  lemma {:induction false} NoFiltersNoSteps(steps: seq<Step>, v: Validators)
    ensures FirstError(steps, map[], v) == None
    ensures Emitted(steps, map[]) == [] && Bindings(steps, map[]) == map[]
  {
    if steps != [] {
      NoFiltersNoSteps(steps[1..], v);
    }
  }

  lemma SpecNoFilters(allowed: set<string>, steps: seq<Step>, v: Validators, base: Query)
    ensures Spec(allowed, steps, map[], v, base) == Ok(base)
  {
    SpecOutcome(allowed, steps, map[], v, base);
    NoFiltersNoSteps(steps, v);
    assert base.frags + [] == base.frags;
    assert base.args + map[] == base.args;
  }

  /** The filter a step reads on behalf of another filter, if any (see `Year`). */
  function ReadsFor(s: Step): set<string>
  {
    if s.Year? && s.checked != s.key then {s.checked} else {}
  }

  lemma NoYearReadsNothingElsewhere(s: Step)
    requires !s.Year?
    ensures ReadsFor(s) == {}
  {
  }

  /** The union of `g` over the steps of a table. */
  function Gather(steps: seq<Step>, g: Step -> set<string>): set<string>
  {
    if steps == [] then {} else g(steps[0]) + Gather(steps[1..], g)
  }

  /** The filters some step of the table reads on behalf of another filter. */
  function ReadElsewhere(steps: seq<Step>): set<string>
  {
    Gather(steps, ReadsFor)
  }

  /** A filter supplied with a PHP-empty value behaves as if it were not
      supplied at all, unless its raw value is read on behalf of another
      filter. */
  lemma {:induction false} RunIgnoresEmpty(steps: seq<Step>, f: Filters, key: string, v: Validators, q: Query)
    requires key in f && !Present(f, key)
    requires key !in ReadElsewhere(steps)
    ensures Run(steps, f, v, q) == Run(steps, f - {key}, v, q)
  {
    var g := f - {key};
    assert forall k :: Present(f, k) == Present(g, k);
    assert forall k :: Present(f, k) ==> f[k] == g[k];
    if steps != [] {
      var s := steps[0];
      assert StepError(s, f, v) == StepError(s, g, v);
      if StepError(s, f, v).None? {
        assert Apply(s, f, q) == Apply(s, g, q);
        RunIgnoresEmpty(steps[1..], f, key, v, Apply(s, f, q));
      }
    }
  }

  lemma SpecIgnoresEmpty(allowed: set<string>, steps: seq<Step>, f: Filters, key: string, v: Validators, base: Query)
    requires key in f && !Present(f, key) && key in allowed
    requires key !in ReadElsewhere(steps)
    ensures Spec(allowed, steps, f, v, base) == Spec(allowed, steps, f - {key}, v, base)
  {
    assert f.Keys - allowed == (f - {key}).Keys - allowed;
    RunIgnoresEmpty(steps, f, key, v, base);
  }

  /** The filters whose values a step looks at. */
  function Reads(s: Step): set<string>
  {
    match s
    case Year(k, checked, _, _) => {k, checked}
    case Range(lo, hi, _, _, _, _) => {lo, hi}
    case Exclusive(a, b) => {a, b}
    case _ => {s.key}
  }

  /** The filters some step of the table looks at. */
  function ReadBy(steps: seq<Step>): set<string>
  {
    Gather(steps, Reads)
  }

  /** A filter no step looks at changes nothing, whatever its value. */
  lemma {:induction false} RunIgnoresUnread(steps: seq<Step>, f: Filters, key: string, v: Validators, q: Query)
    requires key !in ReadBy(steps)
    ensures Run(steps, f, v, q) == Run(steps, f - {key}, v, q)
  {
    var g := f - {key};
    if steps != [] {
      var s := steps[0];
      assert forall k | k in Reads(s) :: Present(f, k) == Present(g, k) && Lookup(f, k) == Lookup(g, k);
      assert forall k | k in Reads(s) && Present(f, k) :: f[k] == g[k];
      assert StepError(s, f, v) == StepError(s, g, v);
      if StepError(s, f, v).None? {
        assert Apply(s, f, q) == Apply(s, g, q);
        RunIgnoresUnread(steps[1..], f, key, v, Apply(s, f, q));
      }
    }
  }

  lemma SpecIgnoresUnread(allowed: set<string>, steps: seq<Step>, f: Filters, key: string, v: Validators, base: Query)
    requires key in allowed && key !in ReadBy(steps)
    ensures Spec(allowed, steps, f, v, base) == Spec(allowed, steps, f - {key}, v, base)
  {
    assert f.Keys - allowed == (f - {key}).Keys - allowed;
    RunIgnoresUnread(steps, f, key, v, base);
  }

  // ---------------------------------------------------------------------
  // Placeholders and bindings stay in step.

  /** A step whose fragment mentions exactly the names it binds. */
  predicate Consistent(s: Step)
  {
    s.Exclusive? || ParamsOf(s.frag) == ArgNames(s)
  }

  /** One consistent step keeps a query well bound. */
  lemma ApplyKeepsWellBound(s: Step, f: Filters, q: Query)
    requires WellBound(q)
    requires Fires(s, f) ==> Consistent(s)
    ensures WellBound(Apply(s, f, q))
  {
    PlaceholdersAppend(q.frags, StepFrags(s, f));
    if Fires(s, f) {
      assert Placeholders([s.frag]) == ParamsOf(s.frag) by {
        assert [s.frag][1..] == [];
      }
    }
  }

  /** If every step that fires is consistent, a run from a well-bound query
      ends in a well-bound query. */
  lemma {:induction false} RunKeepsWellBound(steps: seq<Step>, f: Filters, v: Validators, q: Query)
    requires WellBound(q)
    requires forall i :: 0 <= i < |steps| && Fires(steps[i], f) ==> Consistent(steps[i])
    requires Run(steps, f, v, q).Ok?
    ensures WellBound(Run(steps, f, v, q).value)
  {
    if steps != [] {
      ApplyKeepsWellBound(steps[0], f, q);
      assert forall i :: 0 <= i < |steps| - 1 ==> steps[1..][i] == steps[i + 1];
      RunKeepsWellBound(steps[1..], f, v, Apply(steps[0], f, q));
    }
  }

  /** The same for a whole list method. */
  lemma SpecWellBound(allowed: set<string>, steps: seq<Step>, f: Filters, v: Validators, base: Query)
    requires WellBound(base)
    requires forall i :: 0 <= i < |steps| && Fires(steps[i], f) ==> Consistent(steps[i])
    ensures Spec(allowed, steps, f, v, base).Ok? ==> WellBound(Spec(allowed, steps, f, v, base).value)
  {
    if Spec(allowed, steps, f, v, base).Ok? {
      RunKeepsWellBound(steps, f, v, base);
    }
  }

  /** The placeholders of a step that fires are in the emitted text. */
  lemma {:induction false} EmittedMentions(steps: seq<Step>, i: nat, f: Filters)
    requires i < |steps| && Fires(steps[i], f)
    ensures !steps[i].Exclusive?
    ensures ParamsOf(steps[i].frag) <= Placeholders(Emitted(steps, f))
  {
    PlaceholdersAppend(StepFrags(steps[0], f), Emitted(steps[1..], f));
    if i == 0 {
      assert Placeholders([steps[0].frag]) == ParamsOf(steps[0].frag) by {
        assert [steps[0].frag][1..] == [];
      }
    } else {
      assert steps[1..][i - 1] == steps[i];
      EmittedMentions(steps[1..], i - 1, f);
    }
  }

  /** A list method that returns a query: the placeholders of each step
      that fired are in its text, and it binds only the base query's names
      and names its steps bind. */
  lemma SpecMentions(allowed: set<string>, steps: seq<Step>, f: Filters, v: Validators, base: Query, i: nat)
    requires Spec(allowed, steps, f, v, base).Ok?
    requires i < |steps| && Fires(steps[i], f)
    ensures !steps[i].Exclusive?
    ensures ParamsOf(steps[i].frag) <= Placeholders(Spec(allowed, steps, f, v, base).value.frags)
    ensures Spec(allowed, steps, f, v, base).value.args.Keys <= base.args.Keys + Gather(steps, ArgNames)
  {
    SpecOk(allowed, steps, f, v, base);
    EmittedMentions(steps, i, f);
    PlaceholdersAppend(base.frags, Emitted(steps, f));
    BindingsKeys(steps, f);
  }
}
