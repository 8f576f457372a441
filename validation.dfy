/**
 * The part of a Zod schema's behaviour the tools rely on: a field either
 * yields a value or a list of issues, each naming the field's path and
 * the check that failed.
 */
module Validation {
  import opened Wrappers
  import opened JsValue
  import Text

  datatype IssueCode =
    | Required                        // invalid_type, received undefined
    | InvalidType(expected: string)   // invalid_type, received something else
    | TooSmall(minimum: int)
    | TooBig(maximum: int)
    | InvalidString(pattern: string)  // a failed `.regex(...)`
    | InvalidEnum(options: seq<string>)
    | InvalidLiteral(literal: int)
    | InvalidUnion                    // none of a union's options accepted the value
    | Custom(message: string)         // a failed `.refine(...)` or `ctx.addIssue`

  datatype Issue = Issue(path: string, code: IssueCode)

  type Checked<T> = Result<T, seq<Issue>>

  /** The issues of a checked field, none when it passed. */
  function IssuesOf<T>(r: Checked<T>): seq<Issue>
  {
    match r
    case Success(_) => []
    case Failure(issues) => issues
  }

  /** One issue on `path` unless `ok`. */
  function Check(ok: bool, path: string, code: IssueCode): seq<Issue>
  {
    if ok then [] else [Issue(path, code)]
  }

  /** `z.number()`. */
  function NumberField(path: string, v: Value): (r: Checked<int>)
    ensures r.Success? <==> v.Num?
    ensures r.Success? ==> r.value == v.n
    ensures r.Failure? ==> r.error != []
  {
    match v
    case Num(n) => Success(n)
    case Undefined => Failure([Issue(path, Required)])
    case _ => Failure([Issue(path, InvalidType("number"))])
  }

  /** `z.string()`. */
  function StringField(path: string, v: Value): (r: Checked<string>)
    ensures r.Success? <==> v.Str?
    ensures r.Success? ==> r.value == v.s
    ensures r.Failure? ==> r.error != []
  {
    match v
    case Str(s) => Success(s)
    case Undefined => Failure([Issue(path, Required)])
    case _ => Failure([Issue(path, InvalidType("string"))])
  }

  /** `z.boolean()`. */
  function BooleanField(path: string, v: Value): (r: Checked<bool>)
    ensures r.Success? <==> v.Bool?
    ensures r.Success? ==> r.value == v.b
    ensures r.Failure? ==> r.error != []
  {
    match v
    case Bool(b) => Success(b)
    case Undefined => Failure([Issue(path, Required)])
    case _ => Failure([Issue(path, InvalidType("boolean"))])
  }

  /** `.default(d)`: an absent value is replaced before it is checked. */
  function Default(v: Value, d: Value): Value
  {
    if v.Undefined? then d else v
  }

  /** `.min(lo)` followed by `.max(hi)` on a number field. */
  function InRange(path: string, r: Checked<int>, lo: int, hi: int): (q: Checked<int>)
    ensures q.Success? <==> r.Success? && lo <= r.value <= hi
    ensures q.Success? ==> q.value == r.value
    ensures r.Failure? && r.error != [] ==> q.Failure? && q.error != []
    ensures q.Failure? && r.Success? ==> q.error != []
  {
    match r
    case Failure(e) => Failure(e)
    case Success(n) =>
      var issues := Check(lo <= n, path, TooSmall(lo)) + Check(n <= hi, path, TooBig(hi));
      if issues == [] then Success(n) else Failure(issues)
  }

  /** `.min(lo)` on a number field. */
  function AtLeast(path: string, r: Checked<int>, lo: int): (q: Checked<int>)
    ensures q.Success? <==> r.Success? && lo <= r.value
    ensures q.Success? ==> q.value == r.value
    ensures r.Failure? && r.error != [] ==> q.Failure? && q.error != []
    ensures q.Failure? && r.Success? ==> q.error != []
  {
    match r
    case Failure(e) => Failure(e)
    case Success(n) => if lo <= n then Success(n) else Failure([Issue(path, TooSmall(lo))])
  }

  /** `z.string().regex(/^\d{8}$/)`. */
  function DateField(path: string, v: Value): (r: Checked<string>)
    ensures r.Failure? ==> r.error != []
    ensures r.Success? <==> v.Str? && Text.IsDigits(v.s, 8)
    ensures r.Success? ==> r.value == v.s
  {
    match StringField(path, v)
    case Failure(e) => Failure(e)
    case Success(s) =>
      if Text.IsDigits(s, 8) then Success(s) else Failure([Issue(path, InvalidString("^\\d{8}$"))])
  }

  /** `.min(n)` on a string field: at least `n` characters. */
  function MinLength(path: string, r: Checked<string>, n: nat): (q: Checked<string>)
    ensures q.Success? <==> r.Success? && |r.value| >= n
    ensures q.Success? ==> q.value == r.value
    ensures r.Failure? && r.error != [] ==> q.Failure? && q.error != []
    ensures q.Failure? && r.Success? ==> q.error == [Issue(path, TooSmall(n))]
  {
    match r
    case Failure(e) => Failure(e)
    case Success(s) => if |s| >= n then Success(s) else Failure([Issue(path, TooSmall(n))])
  }

  /** `z.enum(options)`. */
  function EnumField(path: string, v: Value, options: seq<string>): (r: Checked<string>)
    ensures r.Success? <==> v.Str? && v.s in options
    ensures r.Success? ==> r.value == v.s
    ensures r.Failure? ==> r.error != []
  {
    match StringField(path, v)
    case Failure(e) => Failure(e)
    case Success(s) => if s in options then Success(s) else Failure([Issue(path, InvalidEnum(options))])
  }

  /** `.optional()`: an absent value is accepted as absent, any other is checked. */
  function OptionalField<T>(v: Value, r: Checked<T>): (q: Checked<Option<T>>)
    ensures q.Success? <==> v.Undefined? || r.Success?
    ensures q.Success? ==> (q.value.Some? <==> !v.Undefined?)
    ensures q.Success? && !v.Undefined? ==> q.value.value == r.value
    ensures q.Failure? ==> q.error == IssuesOf(r)
  {
    if v.Undefined? then Success(None)
    else match r
      case Failure(e) => Failure(e)
      case Success(x) => Success(Some(x))
  }

  /** `IdAsString`: a string or a number, kept as its text. */
  function IdAsString(path: string, v: Value): (r: Checked<string>)
    ensures r.Success? <==> v.Str? || v.Num?
    ensures v.Str? ==> r == Success(v.s)
    ensures v.Num? ==> r == Success(NumberToString(v.n))
    ensures r.Failure? ==> r.error == [Issue(path, InvalidUnion)]
  {
    match v
    case Str(s) => Success(s)
    case Num(n) => Success(NumberToString(n))
    case _ => Failure([Issue(path, InvalidUnion)])
  }
  /**
   * `z.array(schema)` from position `i` on: every element checked by
   * `check` (given its index), the values in order when all pass, else
   * the issues of all the elements in order.
   */
  function EachFrom<T>(xs: seq<Value>, i: nat, check: (nat, Value) -> Checked<T>): (r: Checked<seq<T>>)
    requires i <= |xs|
    requires forall j, x :: check(j, x).Failure? ==> check(j, x).error != []
    ensures r.Success? ==> |r.value| == |xs| - i
    ensures r.Failure? ==> r.error != []
    decreases |xs| - i
  {
    if i == |xs| then Success([])
    else
      var head := check(i, xs[i]);
      var tail := EachFrom(xs, i + 1, check);
      if head.Success? && tail.Success? then Success([head.value] + tail.value)
      else
        assert IssuesOf(head) != [] || IssuesOf(tail) != [];
        Failure(IssuesOf(head) + IssuesOf(tail))
  }

  /** The array check succeeds exactly when every element's check does. */
  lemma {:induction false} EachFromSucceeds<T>(xs: seq<Value>, i: nat, check: (nat, Value) -> Checked<T>)
    requires i <= |xs|
    requires forall j, x :: check(j, x).Failure? ==> check(j, x).error != []
    ensures EachFrom(xs, i, check).Success? <==> forall j :: i <= j < |xs| ==> check(j, xs[j]).Success?
    decreases |xs| - i
  {
    if i < |xs| {
      EachFromSucceeds(xs, i + 1, check);
    }
  }

  /** A successful array check holds, at position `j - i`, the value of element `j`'s check. */
  lemma {:induction false} EachFromValues<T>(xs: seq<Value>, i: nat, check: (nat, Value) -> Checked<T>)
    requires i <= |xs|
    requires forall j, x :: check(j, x).Failure? ==> check(j, x).error != []
    requires EachFrom(xs, i, check).Success?
    ensures forall j :: i <= j < |xs| ==> Success(EachFrom(xs, i, check).value[j - i]) == check(j, xs[j])
    decreases |xs| - i
  {
    if i < |xs| {
      EachFromValues(xs, i + 1, check);
      assert EachFrom(xs, i, check).value == [check(i, xs[i]).value] + EachFrom(xs, i + 1, check).value;
    }
  }
}

