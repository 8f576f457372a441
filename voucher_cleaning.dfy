/**
 * What the `create_voucher` and `create_next_voucher` tools do to their
 * validated arguments before asking the electronic-billing service to
 * authorise a voucher: `create_voucher` takes out its own `fullResponse`
 * flag, and both copy the arguments and delete each of the four optional
 * lists (VAT rates, other taxes, associated vouchers, optional data) that
 * is present but empty, since the service refuses empty lists.
 *
 * Arguments are a dictionary from field name to value; the schemas that
 * validate them and the billing service are parameters.
 */
module VoucherCleaning {
  import opened Wrappers
  import opened JsValue
  import opened ToolResponses

  /** The lists the tools delete when empty, in the order they test them. */
  const EmptiableLists: seq<string> := ["Iva", "Tributos", "CbtesAsoc", "Opcionales"]

  /** `create_voucher`'s own flag, never sent to the service. */
  const FullResponseKey := "fullResponse"

  // ---------------------------------------------------------------------------
  // The test and the reference definition
  // ---------------------------------------------------------------------------

  /** `v.length` for the values that have one: a string's or an array's length. */
  function Length(v: Value): Option<nat>
  {
    match v
    case Str(s) => Some(|s|)
    case Arr(items) => Some(|items|)
    case _ => None
  }

  /** The tools' test, `x && x.length === 0`. */
  predicate EmptyTest(v: Value)
  {
    Truthy(v) && Length(v) == Some(0)
  }

  /** The test holds exactly for an empty array: an empty string is falsy, anything else has no zero length. */
  lemma EmptyTestIsEmptyArray(v: Value)
    ensures EmptyTest(v) <==> v == Arr([])
  {
  }

  /** The arguments without the empty optional lists: every other field, unchanged. */
  function Cleaned(m: map<string, Value>): map<string, Value>
  {
    map k | k in m && !(k in EmptiableLists && m[k] == Arr([])) :: m[k]
  }

  /** A field is deleted iff it is one of the four lists and is present but empty. */
  lemma CleanedRemoves(m: map<string, Value>, k: string)
    ensures k in m && k !in Cleaned(m) <==> k in m && k in EmptiableLists && m[k] == Arr([])
    ensures k !in m ==> k !in Cleaned(m)
    ensures k in Cleaned(m) ==> Cleaned(m)[k] == m[k]
  {
  }

  /** Non-empty lists and every other field pass through unchanged. */
  lemma CleanedKeeps(m: map<string, Value>, k: string)
    requires k in m
    requires k !in EmptiableLists || m[k] != Arr([])
    ensures k in Cleaned(m) && Cleaned(m)[k] == m[k]
  {
  }

  /** Cleaning twice is cleaning once. */
  lemma CleanedIdempotent(m: map<string, Value>)
    ensures Cleaned(Cleaned(m)) == Cleaned(m)
  {
    var c := Cleaned(m);
    assert Cleaned(c).Keys == c.Keys;
  }

  // ---------------------------------------------------------------------------
  // The deletions
  // ---------------------------------------------------------------------------

  /** `{ ...params }` followed by the four guarded `delete`s. */
  method RemoveEmptyLists(params: map<string, Value>) returns (cleaned: map<string, Value>)
    ensures cleaned == Cleaned(params)
  {
    cleaned := params;
    if "Iva" in cleaned && EmptyTest(cleaned["Iva"]) {
      cleaned := cleaned - {"Iva"};
    }
    if "Tributos" in cleaned && EmptyTest(cleaned["Tributos"]) {
      cleaned := cleaned - {"Tributos"};
    }
    if "CbtesAsoc" in cleaned && EmptyTest(cleaned["CbtesAsoc"]) {
      cleaned := cleaned - {"CbtesAsoc"};
    }
    if "Opcionales" in cleaned && EmptyTest(cleaned["Opcionales"]) {
      cleaned := cleaned - {"Opcionales"};
    }
    RemovalsAreCleaning(params, cleaned);
  }

  lemma RemovalsAreCleaning(params: map<string, Value>, cleaned: map<string, Value>)
    requires cleaned.Keys <= params.Keys
    requires forall k :: k in cleaned ==> cleaned[k] == params[k]
    requires forall k :: k in params && k !in cleaned <==> k in params && k in EmptiableLists && EmptyTest(params[k])
    ensures cleaned == Cleaned(params)
  {
    forall k | k in params
      ensures k in cleaned <==> k in Cleaned(params)
    {
      EmptyTestIsEmptyArray(params[k]);
    }
    assert cleaned.Keys == Cleaned(params).Keys;
  }

  /** `const { fullResponse, ...voucherData } = validatedParams`. */
  function WithoutFullResponse(m: map<string, Value>): (r: map<string, Value>)
    ensures FullResponseKey !in r
    ensures forall k :: k != FullResponseKey ==> (k in r <==> k in m) && (k in r ==> r[k] == m[k])
  {
    m - {FullResponseKey}
  }

  /** `fullResponse || false`: the flag when it is truthy, `false` otherwise (in particular when absent). */
  function FullResponseFlag(v: Value): (r: Value)
    ensures v.Undefined? || v == Bool(false) ==> r == Bool(false)
    ensures v == Bool(true) ==> r == Bool(true)
    ensures !Truthy(r) ==> r == Bool(false)
  {
    if Truthy(v) then v else Bool(false)
  }

  // ---------------------------------------------------------------------------
  // The tools
  // ---------------------------------------------------------------------------

  /** `VoucherSchema.parse` or `NextVoucherSchema.parse`: the validated fields, or the error it throws. */
  type Validator = Value -> Result<map<string, Value>, Value>

  /**
   * `CreateVoucherTool.execute`: validate, set `fullResponse` aside,
   * delete the empty lists and create the voucher; anything thrown is
   * reported with its message and the error itself.
   */
  method CreateVoucher(params: Value, validate: Validator, createVoucher: (map<string, Value>, Value) -> Outcome)
    returns (r: ToolResponse)
    ensures validate(params).Failure? ==> r == ToolResponse(ErrorBody(validate(params).error), true)
    ensures validate(params).Success? ==>
      var m := validate(params).value;
      var flag := FullResponseFlag(if FullResponseKey in m then m[FullResponseKey] else Undefined);
      match createVoucher(Cleaned(WithoutFullResponse(m)), flag)
      case Answered(v) => r == ToolResponse(v, false)
      case Threw(e) => r == ToolResponse(ErrorBody(e), true)
  {
    var validated := validate(params);
    if validated.Failure? {
      return ToolResponse(ErrorBody(validated.error), true);
    }
    var fullResponse := if FullResponseKey in validated.value then validated.value[FullResponseKey] else Undefined;
    var voucherData := WithoutFullResponse(validated.value);
    var cleaned := RemoveEmptyLists(voucherData);
    match createVoucher(cleaned, FullResponseFlag(fullResponse))
    case Answered(v) => r := ToolResponse(v, false);
    case Threw(e) => r := ToolResponse(ErrorBody(e), true);
  }

  /** What `create_voucher` sends never holds `fullResponse` nor an empty list. */
  lemma SentVoucherIsClean(m: map<string, Value>, k: string)
    requires k in Cleaned(WithoutFullResponse(m))
    ensures k != FullResponseKey
    ensures k in EmptiableLists ==> Cleaned(WithoutFullResponse(m))[k] != Arr([])
    ensures Cleaned(WithoutFullResponse(m))[k] == m[k]
  {
  }

  /**
   * `CreateNextVoucherTool.execute`: validate, delete the empty lists and
   * create the next voucher; anything thrown is reported with its message
   * and the error itself.
   */
  method CreateNextVoucher(params: Value, validate: Validator, createNextVoucher: map<string, Value> -> Outcome)
    returns (r: ToolResponse)
    ensures validate(params).Failure? ==> r == ToolResponse(ErrorBody(validate(params).error), true)
    ensures validate(params).Success? ==>
      match createNextVoucher(Cleaned(validate(params).value))
      case Answered(v) => r == ToolResponse(v, false)
      case Threw(e) => r == ToolResponse(ErrorBody(e), true)
  {
    var validated := validate(params);
    if validated.Failure? {
      return ToolResponse(ErrorBody(validated.error), true);
    }
    var cleaned := RemoveEmptyLists(validated.value);
    match createNextVoucher(cleaned)
    case Answered(v) => r := ToolResponse(v, false);
    case Threw(e) => r := ToolResponse(ErrorBody(e), true);
  }
}
