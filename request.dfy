/**
 * Request input as the handlers see it: JSON body fields checked by zod
 * schemas, and route parameters converted by JavaScript's `Number(...)`.
 */
module Request {
  import opened Wrappers
  import opened Strings

  /**
   * A value in a JSON request body. `JFrac` is a number that is not an
   * integer; the members of an object are not modelled.
   */
  datatype Json = JNull | JBool(b: bool) | JInt(i: int) | JFrac | JStr(s: string) | JArr(elems: seq<Json>) | JObject

  /** A body field: `None` when the key is absent (`undefined`). */
  type Field = Option<Json>

  /** `z.number().int().positive()`. */
  function PositiveInt(f: Field): (r: Option<nat>)
    ensures r.Some? <==> f.Some? && f.value.JInt? && f.value.i > 0
    ensures r.Some? ==> f == Some(JInt(r.value))
  {
    if f.Some? && f.value.JInt? && f.value.i > 0 then Some(f.value.i) else None
  }

  /** `z.number().int().positive().default(d)`: an absent field reads as `d`. */
  function PositiveIntOr(f: Field, d: nat): (r: Option<nat>)
    ensures f.None? ==> r == Some(d)
    ensures f.Some? ==> r == PositiveInt(f)
  {
    if f.None? then Some(d) else PositiveInt(f)
  }

  /** `z.number().int().min(lo)`. */
  function IntAtLeast(f: Field, lo: int): (r: Option<int>)
    ensures r.Some? <==> f.Some? && f.value.JInt? && f.value.i >= lo
    ensures r.Some? ==> f == Some(JInt(r.value))
  {
    if f.Some? && f.value.JInt? && f.value.i >= lo then Some(f.value.i) else None
  }

  /** `z.enum(allowed).default(d)`. */
  function EnumOr(f: Field, allowed: seq<string>, d: string): (r: Option<string>)
    ensures f.None? ==> r == Some(d)
    ensures f.Some? ==> (r.Some? <==> f.value.JStr? && f.value.s in allowed)
    ensures f.Some? && r.Some? ==> f == Some(JStr(r.value))
  {
    if f.None? then Some(d)
    else if f.value.JStr? && f.value.s in allowed then Some(f.value.s)
    else None
  }

  /** `z.string().min(lo).max(hi)`, lengths counted in characters. */
  function StringBetween(f: Field, lo: nat, hi: nat): (r: Option<string>)
    ensures r.Some? <==> f.Some? && f.value.JStr? && lo <= |f.value.s| <= hi
    ensures r.Some? ==> f == Some(JStr(r.value))
  {
    if f.Some? && f.value.JStr? && lo <= |f.value.s| <= hi then Some(f.value.s) else None
  }

  /** `z.string().min(lo)`. */
  function StringAtLeast(f: Field, lo: nat): (r: Option<string>)
    ensures r.Some? <==> f.Some? && f.value.JStr? && lo <= |f.value.s|
    ensures r.Some? ==> f == Some(JStr(r.value))
  {
    if f.Some? && f.value.JStr? && lo <= |f.value.s| then Some(f.value.s) else None
  }

  /** `z.string().email()`, the address syntax check being `isEmail`. */
  function Email(f: Field, isEmail: string -> bool): (r: Option<string>)
    ensures r.Some? <==> f.Some? && f.value.JStr? && isEmail(f.value.s)
    ensures r.Some? ==> f == Some(JStr(r.value))
  {
    if f.Some? && f.value.JStr? && isEmail(f.value.s) then Some(f.value.s) else None
  }

  /**
   * `z.string().optional()`: `Some(None)` for an absent field, `Some(Some(s))`
   * for a string, `None` (a validation failure) for anything else.
   */
  function OptionalString(f: Field): (r: Option<Option<string>>)
    ensures f.None? ==> r == Some(None)
    ensures f.Some? ==> (r.Some? <==> f.value.JStr?)
    ensures f.Some? && r.Some? ==> r.value == Some(f.value.s)
  {
    match f
    case None => Some(None)
    case Some(JStr(s)) => Some(Some(s))
    case Some(_) => None
  }

  /** `z.boolean().optional()`. */
  function OptionalBool(f: Field): (r: Option<Option<bool>>)
    ensures f.None? ==> r == Some(None)
    ensures f.Some? ==> (r.Some? <==> f.value.JBool?)
    ensures f.Some? && r.Some? ==> r.value == Some(f.value.b)
  {
    match f
    case None => Some(None)
    case Some(JBool(b)) => Some(Some(b))
    case Some(_) => None
  }

  /** A JavaScript number: `NaN`, an integer, or a finite value that is not an integer. */
  datatype Num = NaN | Int(i: int) | NonInt

  /** `!n`: zero and NaN are falsy. */
  predicate IsFalsy(n: Num)
  {
    n == NaN || n == Int(0)
  }

  /** The rowid `WHERE id = n` can match: none for negative or non-integral `n`. */
  function RowId(n: Num): (r: Option<nat>)
    ensures r.Some? <==> n.Int? && n.i > 0
    ensures r.Some? ==> n == Int(r.value)
  {
    if n.Int? && n.i > 0 then Some(n.i) else None
  }

  /** The length of the longest all-digit prefix of `s`. */
  function DigitRun(s: string): (k: nat)
    ensures k <= |s|
    ensures forall i :: 0 <= i < k ==> IsDigit(s[i])
    ensures k < |s| ==> !IsDigit(s[k])
  {
    if s != [] && IsDigit(s[0]) then 1 + DigitRun(s[1..]) else 0
  }

  /**
   * An unsigned decimal literal `ddd`, `ddd.fff`, `ddd.` or `.fff`: the value
   * of its integer part and whether its fraction is zero.
   */
  function Decimal(b: string): (r: Option<(nat, bool)>)
    ensures r.Some? ==> b != []
  {
    var k := DigitRun(b);
    var rest := b[k..];
    if rest == [] then
      if k > 0 then Some((DigitsValue(b[..k]), true)) else None
    else if rest[0] == '.' && forall i :: 1 <= i < |rest| ==> IsDigit(rest[i]) then
      if k > 0 || |rest| > 1 then
        Some((DigitsValue(b[..k]), forall i :: 1 <= i < |rest| ==> rest[i] == '0'))
      else None
    else None
  }

  /**
   * `Number(s)` for a string, restricted to decimal notation: surrounding
   * white space is ignored, white space alone is 0, an optional sign may lead.
   */
  function ToNumber(s: string): (n: Num)
    ensures Trim(s) == "" ==> n == Int(0)
    ensures n.Int? && n.i < 0 ==> Trim(s) != "" && Trim(s)[0] == '-'
  {
    var t := Trim(s);
    if t == "" then Int(0)
    else
      var signed := t[0] == '-' || t[0] == '+';
      var body := if signed then t[1..] else t;
      match Decimal(body)
      case None => NaN
      case Some((v, integral)) =>
        var value: int := v;
        if !integral then NonInt else if t[0] == '-' then Int(-value) else Int(value)
  }

  /**
   * `Number(array)`: the number its `toString` spells. An empty array and a
   * single `null` spell `""`, which is 0; two or more elements are joined
   * with a comma, which is never a number; a single element spells itself.
   */
  function ArrayNumber(xs: seq<Json>): (n: Num)
    ensures |xs| == 0 ==> n == Int(0)
    ensures |xs| >= 2 ==> n == NaN
    ensures |xs| == 1 && xs[0].JInt? ==> n == Int(xs[0].i)
    ensures |xs| == 1 && xs[0].JStr? ==> n == ToNumber(xs[0].s)
    ensures |xs| == 1 && xs[0].JArr? ==> n == ArrayNumber(xs[0].elems)
    decreases xs
  {
    if |xs| == 0 then Int(0)
    else if |xs| >= 2 then NaN
    else
      match xs[0]
      case JNull => Int(0)
      case JBool(_) => NaN
      case JInt(i) => Int(i)
      case JFrac => NonInt
      case JStr(s) => ToNumber(s)
      case JArr(ys) => ArrayNumber(ys)
      case JObject => NaN
  }

  /** `Number(json || 0)` for a body field. */
  function JsonToNumber(f: Field): (n: Num)
    ensures f.Some? && f.value.JInt? ==> n == Int(f.value.i)
    ensures f.Some? && f.value.JStr? ==> n == ToNumber(f.value.s)
    ensures f.Some? && f.value.JArr? ==> n == ArrayNumber(f.value.elems)
    ensures f.None? || f == Some(JNull) ==> n == Int(0)
    ensures f == Some(JObject) ==> n == NaN
  {
    match f
    case None => Int(0)
    case Some(JNull) => Int(0)
    case Some(JBool(b)) => Int(if b then 1 else 0)
    case Some(JInt(i)) => Int(i)
    case Some(JFrac) => NonInt
    case Some(JStr(s)) => ToNumber(s)
    case Some(JArr(xs)) => ArrayNumber(xs)
    case Some(JObject) => NaN
  }

  /** A body id given as a one-element array, `[5]` or `["5"]`, reads as that id. */
  lemma WrappedIdReadsAsId(n: nat)
    requires n > 0
    ensures RowId(JsonToNumber(Some(JArr([JInt(n)])))) == Some(n)
    ensures RowId(JsonToNumber(Some(JArr([JStr(NatToString(n))])))) == Some(n)
  {
    assert ArrayNumber([JInt(n)]) == Int(n);
    ToNumberOfNatToString(n);
    assert ArrayNumber([JStr(NatToString(n))]) == Int(n);
  }

  /** A rendered rowid converts back to that rowid. */
  lemma ToNumberOfNatToString(n: nat)
    ensures ToNumber(NatToString(n)) == Int(n)
  {
    var s := NatToString(n);
    assert !IsSpace(s[0]) && !IsSpace(s[|s| - 1]);
    TrimOfTrimmed(s);
    DigitRunAll(s);
    assert s[..|s|] == s;
    NatToStringRoundTrip(n);
  }

  lemma {:induction false} DigitRunAll(s: string)
    requires forall i :: 0 <= i < |s| ==> IsDigit(s[i])
    ensures DigitRun(s) == |s|
  {
    if s != [] {
      DigitRunAll(s[1..]);
    }
  }

  /** A route parameter naming a positive integer selects exactly that rowid. */
  lemma RouteIdOfRenderedId(n: nat)
    requires n > 0
    ensures !IsFalsy(ToNumber(NatToString(n))) && RowId(ToNumber(NatToString(n))) == Some(n)
  {
    assert ArrayNumber([JInt(n)]) == Int(n);
    ToNumberOfNatToString(n);
    assert ArrayNumber([JStr(NatToString(n))]) == Int(n);
  }
}
