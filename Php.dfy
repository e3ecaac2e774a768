/** The PHP primitives the filter code leans on: a missing array key read as
    null, `empty()`, `is_numeric()` and `filter_var(..., FILTER_VALIDATE_BOOLEAN)`,
    restricted to the string values a query string carries. */
module Php {

  datatype Option<+T> = None | Some(value: T)

  /** The query-string parameters of one request: name to (single) value. */
  type Filters = map<string, string>

  /** `$filters[$key]`: a missing key reads as null. */
  function Lookup(f: Filters, key: string): (r: Option<string>)
    ensures r.Some? <==> key in f
    ensures r.Some? ==> r.value == f[key]
  {
    if key in f then Some(f[key]) else None
  }

  /** `empty($v)` for a value that is null or a string: null, "" and "0". */
  predicate IsEmpty(v: Option<string>)
  {
    v == None || v == Some("") || v == Some("0")
  }

  /** `!empty($filters[$key])`, the guard in front of every filter. */
  predicate Present(f: Filters, key: string)
  {
    !IsEmpty(Lookup(f, key))
  }

  lemma PresentMeansSuppliedAndNonEmpty(f: Filters, key: string)
    ensures Present(f, key) <==> key in f && f[key] != "" && f[key] != "0"
  {
  }

  // ---------------------------------------------------------------------
  // is_numeric (PHP 8): optional leading and trailing white space around
  // an optional sign, a decimal mantissa with at least one digit, and an
  // optional exponent.

  predicate IsDigit(c: char) { '0' <= c <= '9' }

  predicate IsSpace(c: char)
  {
    c == ' ' || c == '\t' || c == '\n' || c == '\r' || c == '\U{0B}' || c == '\U{0C}'
  }

  /** The length of the run of decimal digits that starts `s`. */
  function Digits(s: string): (n: nat)
    ensures n <= |s|
    ensures forall k :: 0 <= k < n ==> IsDigit(s[k])
    ensures n < |s| ==> !IsDigit(s[n])
  {
    if s == [] || !IsDigit(s[0]) then 0 else 1 + Digits(s[1..])
  }

  function TrimLeft(s: string): (t: string)
    ensures |t| <= |s| && t == s[|s| - |t|..]
    ensures t != [] ==> !IsSpace(t[0])
  {
    if s != [] && IsSpace(s[0]) then TrimLeft(s[1..]) else s
  }

  function TrimRight(s: string): (t: string)
    ensures |t| <= |s| && t == s[..|t|]
    ensures t != [] ==> !IsSpace(t[|t| - 1])
  {
    if s != [] && IsSpace(s[|s| - 1]) then TrimRight(s[..|s| - 1]) else s
  }

  /** `[eE][+-]?[0-9]+` */
  predicate IsExponent(e: string)
  {
    && |e| >= 2
    && (e[0] == 'e' || e[0] == 'E')
    && var x := if e[1] == '+' || e[1] == '-' then e[2..] else e[1..];
       x != [] && Digits(x) == |x|
  }

  /** An unsigned decimal literal: `[0-9]+`, `[0-9]*.[0-9]+` or `[0-9]+.[0-9]*`,
      optionally followed by an exponent. */
  predicate IsUnsignedNumber(b: string)
  {
    var i := Digits(b);
    var dot := i < |b| && b[i] == '.';
    var frac := if dot then Digits(b[i + 1..]) else 0;
    var m := if dot then i + 1 + frac else i;
    (i > 0 || frac > 0) && (m == |b| || IsExponent(b[m..]))
  }

  /** `is_numeric($s)` for a string. */
  predicate IsNumeric(s: string)
  {
    var t := TrimRight(TrimLeft(s));
    var b := if t != [] && (t[0] == '+' || t[0] == '-') then t[1..] else t;
    IsUnsignedNumber(b)
  }

  predicate AllDigits(s: string)
  {
    forall k :: 0 <= k < |s| ==> IsDigit(s[k])
  }

  /** Every non-empty run of decimal digits is numeric; in particular the
      controllers' defaults 1 and 10. */
  lemma DigitStringIsNumeric(s: string)
    requires s != [] && AllDigits(s)
    ensures IsNumeric(s)
  {
    assert !IsSpace(s[0]) && !IsSpace(s[|s| - 1]);
    assert TrimLeft(s) == s;
    assert TrimRight(s) == s;
    assert Digits(s) == |s|;
    assert !(s[0] == '+' || s[0] == '-');
    assert IsUnsignedNumber(s);
  }

  /** A numeric string holds at least one digit, so neither "" nor a word
      without digits is numeric. */
  lemma {:induction false} NumericHasDigit(s: string)
    requires IsNumeric(s)
    ensures exists k :: 0 <= k < |s| && IsDigit(s[k])
  {
    var l := TrimLeft(s);
    var t := TrimRight(l);
    var off := if t != [] && (t[0] == '+' || t[0] == '-') then 1 else 0;
    var b := t[off..];
    var i := Digits(b);
    var j: int;
    if i > 0 {
      j := 0;
    } else {
      assert b[0] == '.';
      j := 1;
      assert Digits(b[1..]) > 0;
      assert IsDigit(b[1..][0]);
    }
    assert IsDigit(b[j]);
    assert b[j] == t[off + j] == l[off + j] == s[|s| - |l| + off + j];
  }

  /** A string without a decimal digit, the empty string or any word among
      them, is not numeric. */
  lemma DigitlessIsNotNumeric(s: string)
    requires forall k :: 0 <= k < |s| ==> !IsDigit(s[k])
    ensures !IsNumeric(s)
  {
    if IsNumeric(s) {
      NumericHasDigit(s);
    }
  }

  // ---------------------------------------------------------------------
  // filter_var($v, FILTER_VALIDATE_BOOLEAN) without FILTER_NULL_ON_FAILURE:
  // the value is stripped of space, tab, line feed, carriage return and
  // vertical tab at both ends (not form feed, unlike is_numeric); what is
  // left is true when it is "1", "true", "on" or "yes" in any letter case,
  // and false otherwise.

  /** The white space the filter extension strips before it compares. */
  predicate IsFilterSpace(c: char)
  {
    c == ' ' || c == '\t' || c == '\n' || c == '\r' || c == '\U{0B}'
  }

  predicate AllFilterSpace(s: string)
  {
    forall k :: 0 <= k < |s| ==> IsFilterSpace(s[k])
  }

  function StripLeft(s: string): (t: string)
    ensures |t| <= |s| && t == s[|s| - |t|..]
    ensures t != [] ==> !IsFilterSpace(t[0])
  {
    if s != [] && IsFilterSpace(s[0]) then StripLeft(s[1..]) else s
  }

  function StripRight(s: string): (t: string)
    ensures |t| <= |s| && t == s[..|t|]
    ensures t != [] ==> !IsFilterSpace(t[|t| - 1])
  {
    if s != [] && IsFilterSpace(s[|s| - 1]) then StripRight(s[..|s| - 1]) else s
  }

  function LowerChar(c: char): (d: char)
    ensures 'A' <= c <= 'Z' ==> 'a' <= d <= 'z'
    ensures !('A' <= c <= 'Z') ==> d == c
  {
    if 'A' <= c <= 'Z' then (c as int - 'A' as int + 'a' as int) as char else c
  }

  function Lower(s: string): (t: string)
    ensures |t| == |s|
    ensures forall k :: 0 <= k < |s| ==> t[k] == LowerChar(s[k])
  {
    seq(|s|, k requires 0 <= k < |s| => LowerChar(s[k]))
  }

  predicate FilterBool(s: string)
  {
    Lower(StripRight(StripLeft(s))) in {"1", "true", "on", "yes"}
  }

  /** Leading white space is stripped away entirely. */
  lemma {:induction false} StripLeftPadded(pre: string, s: string)
    requires AllFilterSpace(pre)
    ensures StripLeft(pre + s) == StripLeft(s)
  {
    if pre != [] {
      assert IsFilterSpace(pre[0]);
      assert (pre + s)[0] == pre[0];
      assert (pre + s)[1..] == pre[1..] + s;
      StripLeftPadded(pre[1..], s);
    } else {
      assert pre + s == s;
    }
  }

  /** Trailing white space is stripped away entirely. */
  lemma {:induction false} StripRightPadded(s: string, post: string)
    requires AllFilterSpace(post)
    ensures StripRight(s + post) == StripRight(s)
  {
    if post != [] {
      var n := |s + post|;
      assert IsFilterSpace(post[|post| - 1]);
      assert (s + post)[n - 1] == post[|post| - 1];
      assert (s + post)[..n - 1] == s + post[..|post| - 1];
      StripRightPadded(s, post[..|post| - 1]);
    } else {
      assert s + post == s;
    }
  }

  /** Stripping the front of `s + post` stops inside `s` unless `s` is all
      white space. */
  lemma {:induction false} StripLeftAppend(s: string, post: string)
    ensures StripLeft(s) != [] ==> StripLeft(s + post) == StripLeft(s) + post
    ensures StripLeft(s) == [] ==> StripLeft(s + post) == StripLeft(post)
  {
    if s == [] {
      assert s + post == post;
    } else if IsFilterSpace(s[0]) {
      assert (s + post)[1..] == s[1..] + post;
      StripLeftAppend(s[1..], post);
    } else {
      assert (s + post)[0] == s[0];
    }
  }

  /** Letter case and white space do not interact: lowering the stripped
      value is stripping the lowered value. */
  lemma {:induction false} LowerStripLeft(s: string)
    ensures Lower(StripLeft(s)) == StripLeft(Lower(s))
  {
    var l := Lower(s);
    if s == [] {
      assert l == [];
    } else if IsFilterSpace(s[0]) {
      assert IsFilterSpace(l[0]);
      assert l[1..] == Lower(s[1..]);
      LowerStripLeft(s[1..]);
    } else {
      assert !IsFilterSpace(l[0]);
      assert StripLeft(l) == l;
    }
  }

  lemma {:induction false} LowerStripRight(s: string)
    ensures Lower(StripRight(s)) == StripRight(Lower(s))
  {
    var l := Lower(s);
    if s == [] {
      assert l == [];
    } else if IsFilterSpace(s[|s| - 1]) {
      assert IsFilterSpace(l[|l| - 1]);
      assert l[..|l| - 1] == Lower(s[..|s| - 1]);
      LowerStripRight(s[..|s| - 1]);
    } else {
      assert !IsFilterSpace(l[|l| - 1]);
      assert StripRight(l) == l;
    }
  }

  /** FILTER_VALIDATE_BOOLEAN ignores letter case: two values that differ
      only in case read the same. */
  lemma FilterBoolIgnoresCase(s: string, t: string)
    requires Lower(s) == Lower(t)
    ensures FilterBool(s) <==> FilterBool(t)
  {
    LowerStripLeft(s);
    LowerStripRight(StripLeft(s));
    LowerStripLeft(t);
    LowerStripRight(StripLeft(t));
  }

  /** FILTER_VALIDATE_BOOLEAN ignores white space around the value: a padded
      value reads as its core does, so " yes" and "true\n" are true. */
  lemma FilterBoolIgnoresPadding(pre: string, s: string, post: string)
    requires AllFilterSpace(pre) && AllFilterSpace(post)
    ensures FilterBool(pre + s + post) <==> FilterBool(s)
  {
    assert pre + s + post == pre + (s + post);
    StripLeftPadded(pre, s + post);
    StripLeftAppend(s, post);
    if StripLeft(s) != [] {
      StripRightPadded(StripLeft(s), post);
    } else {
      StripLeftPadded(post, []);
      assert post + [] == post;
    }
  }

  /** A value with no white space at either end is compared as it stands,
      up to letter case. */
  lemma FilterBoolUnpadded(s: string)
    requires s != [] && !IsFilterSpace(s[0]) && !IsFilterSpace(s[|s| - 1])
    ensures FilterBool(s) <==> Lower(s) in {"1", "true", "on", "yes"}
  {
    assert StripLeft(s) == s;
    assert StripRight(s) == s;
  }

  /** "1" is true. */
  lemma FilterBoolOneExample(one: string)
    requires one == "1"
    ensures FilterBool(one)
  {
    assert StripLeft(one) == one && StripRight(one) == one && Lower(one) == one;
  }

  /** Words the filter reads as true, whatever their letter case. */
  lemma FilterBoolTrueExamples(yes: string, on: string)
    requires yes == "YES" && on == "On"
    ensures FilterBool(yes) && FilterBool(on)
  {
    FilterBoolUnpadded(yes);
    FilterBoolUnpadded(on);
    assert Lower(yes) == "yes";
    assert Lower(on) == "on";
  }

  /** Values the filter reads as false. */
  lemma FilterBoolFalseExamples(maybe: string, no: string)
    requires maybe == "maybe" && no == "false"
    ensures !FilterBool(maybe) && !FilterBool(no)
  {
    FilterBoolUnpadded(maybe);
    FilterBoolUnpadded(no);
    assert |Lower(maybe)| == 5;
    assert Lower(no)[0] == 'f';
  }
}
