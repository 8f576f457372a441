/**
 * The `mis_comprobantes` tool: it validates its arguments, gathers the
 * filters the caller gave into one dictionary, and asks the ARCA
 * automation service to run the "mis-comprobantes" automation for the
 * configured taxpayer, whose user name is the CUIT itself.
 *
 * The automation service, the configuration and the rendering of a
 * validation error's message are parameters; the response is the value
 * the tool pretty-prints as JSON.
 */
module MisComprobantes {
  import opened Wrappers
  import opened JsValue
  import Validation
  import Schema = MisComprobantesSchema
  import opened ToolResponses

  /** The automation the tool runs. */
  const AutomationName := "mis-comprobantes"

  /** The filter keys, in the order the tool assigns them. */
  const FilterKeys: seq<string> := [
    "t", "fechaEmision", "puntosVenta", "tiposComprobantes", "comprobanteDesde",
    "comprobanteHasta", "tipoDoc", "nroDoc", "codigoAutorizacion"]

  /** `config.CUIT` and `config.PASSWORD`, as read from the environment. */
  datatype Config = Config(cuit: Value, password: Value)

  /** `data`: the credentials and, when there is any, the filters. */
  datatype AutomationData = AutomationData(
    cuit: Value,
    username: Value,
    password: Value,
    filters: Option<map<string, Value>>)

  /** The automation service: the automation's name, its data and whether to wait for it. */
  type Automation = (string, AutomationData, bool) -> Outcome

  // ---------------------------------------------------------------------------
  // Filters
  // ---------------------------------------------------------------------------

  /** A list of whole numbers as a JavaScript array. */
  function IntList(xs: seq<int>): (r: Value)
    ensures r.Arr? && |r.items| == |xs|
    ensures forall i :: 0 <= i < |xs| ==> r.items[i] == Num(xs[i])
  {
    Arr(seq(|xs|, i requires 0 <= i < |xs| => Num(xs[i])))
  }

  /** The input field a filter key corresponds to, as a value, when it is defined. */
  function FilterEntry(p: Schema.Params, k: string): Option<Value>
  {
    if k == "t" then Some(Str(p.t))
    else if k == "fechaEmision" then Some(Str(p.fechaEmision))
    else if k == "puntosVenta" then (if p.puntosVenta.Some? then Some(IntList(p.puntosVenta.value)) else None)
    else if k == "tiposComprobantes" then (if p.tiposComprobantes.Some? then Some(IntList(p.tiposComprobantes.value)) else None)
    else if k == "comprobanteDesde" then (if p.comprobanteDesde.Some? then Some(Num(p.comprobanteDesde.value)) else None)
    else if k == "comprobanteHasta" then (if p.comprobanteHasta.Some? then Some(Num(p.comprobanteHasta.value)) else None)
    else if k == "tipoDoc" then (if p.tipoDoc.Some? then Some(Num(p.tipoDoc.value)) else None)
    else if k == "nroDoc" then (if p.nroDoc.Some? then Some(Str(p.nroDoc.value)) else None)
    else if k == "codigoAutorizacion" then (if p.codigoAutorizacion.Some? then Some(Str(p.codigoAutorizacion.value)) else None)
    else None
  }

  /** Only the nine filter keys have a field. */
  lemma FilterEntryKeys(p: Schema.Params, k: string)
    ensures FilterEntry(p, k).Some? ==> k in FilterKeys
  {
  }

  /** `filters` as a declarative reference: every filter key whose field is defined, with that field's value. */
  function Filters(p: Schema.Params): map<string, Value>
  {
    map k | k in FilterKeys && FilterEntry(p, k).Some? :: FilterEntry(p, k).value
  }

  /** `f` holds exactly the keys in `done` whose fields are defined, with their values. */
  ghost predicate FiltersSoFar(p: Schema.Params, f: map<string, Value>, done: set<string>)
  {
    forall k :: (k in f <==> k in done && FilterEntry(p, k).Some?)
      && (k in f ==> f[k] == FilterEntry(p, k).value)
  }

  /** One conditional assignment adds its key exactly when its field is defined. */
  lemma AssignStep(p: Schema.Params, f: map<string, Value>, done: set<string>, k: string, g: map<string, Value>)
    requires FiltersSoFar(p, f, done)
    requires FilterEntry(p, k).Some? ==> g == f[k := FilterEntry(p, k).value]
    requires FilterEntry(p, k).None? ==> g == f
    ensures FiltersSoFar(p, g, done + {k})
  {
  }

  /** The `filters` dictionary, built by one conditional assignment per field, in the tool's order. */
  method BuildFilters(p: Schema.Params) returns (filters: map<string, Value>)
    ensures filters == Filters(p)
  {
    filters := map[];
    filters := AssignSelection(p, filters, {});
    filters := AssignVoucherRange(p, filters, {"t", "fechaEmision", "puntosVenta"});
    filters := AssignDocument(p, filters, {"t", "fechaEmision", "puntosVenta", "tiposComprobantes", "comprobanteDesde", "comprobanteHasta"});
    FiltersComplete(p, filters);
  }

  /** The assignments for the direction, the dates and the points of sale. */
  method AssignSelection(p: Schema.Params, f: map<string, Value>, ghost done: set<string>) returns (filters: map<string, Value>)
    requires FiltersSoFar(p, f, done)
    ensures FiltersSoFar(p, filters, done + {"t", "fechaEmision", "puntosVenta"})
  {
    filters := f;
    ghost var before := filters;
    filters := filters["t" := Str(p.t)];
    AssignStep(p, before, done, "t", filters);
    before := filters;
    filters := filters["fechaEmision" := Str(p.fechaEmision)];
    AssignStep(p, before, done + {"t"}, "fechaEmision", filters);
    before := filters;
    if p.puntosVenta.Some? {
      filters := filters["puntosVenta" := IntList(p.puntosVenta.value)];
    }
    AssignStep(p, before, done + {"t", "fechaEmision"}, "puntosVenta", filters);
    assert done + {"t", "fechaEmision", "puntosVenta"} == done + {"t", "fechaEmision"} + {"puntosVenta"};
  }

  /** The assignments for the voucher types and the voucher-number range. */
  method AssignVoucherRange(p: Schema.Params, f: map<string, Value>, ghost done: set<string>) returns (filters: map<string, Value>)
    requires FiltersSoFar(p, f, done)
    ensures FiltersSoFar(p, filters, done + {"tiposComprobantes", "comprobanteDesde", "comprobanteHasta"})
  {
    filters := f;
    ghost var before := filters;
    if p.tiposComprobantes.Some? {
      filters := filters["tiposComprobantes" := IntList(p.tiposComprobantes.value)];
    }
    AssignStep(p, before, done, "tiposComprobantes", filters);
    before := filters;
    if p.comprobanteDesde.Some? {
      filters := filters["comprobanteDesde" := Num(p.comprobanteDesde.value)];
    }
    AssignStep(p, before, done + {"tiposComprobantes"}, "comprobanteDesde", filters);
    before := filters;
    if p.comprobanteHasta.Some? {
      filters := filters["comprobanteHasta" := Num(p.comprobanteHasta.value)];
    }
    AssignStep(p, before, done + {"tiposComprobantes", "comprobanteDesde"}, "comprobanteHasta", filters);
    assert done + {"tiposComprobantes", "comprobanteDesde", "comprobanteHasta"} == done + {"tiposComprobantes", "comprobanteDesde"} + {"comprobanteHasta"};
  }

  /** The assignments for the recipient's document and the authorisation code. */
  method AssignDocument(p: Schema.Params, f: map<string, Value>, ghost done: set<string>) returns (filters: map<string, Value>)
    requires FiltersSoFar(p, f, done)
    ensures FiltersSoFar(p, filters, done + {"tipoDoc", "nroDoc", "codigoAutorizacion"})
  {
    filters := f;
    ghost var before := filters;
    if p.tipoDoc.Some? {
      filters := filters["tipoDoc" := Num(p.tipoDoc.value)];
    }
    AssignStep(p, before, done, "tipoDoc", filters);
    before := filters;
    if p.nroDoc.Some? {
      filters := filters["nroDoc" := Str(p.nroDoc.value)];
    }
    AssignStep(p, before, done + {"tipoDoc"}, "nroDoc", filters);
    before := filters;
    if p.codigoAutorizacion.Some? {
      filters := filters["codigoAutorizacion" := Str(p.codigoAutorizacion.value)];
    }
    AssignStep(p, before, done + {"tipoDoc", "nroDoc"}, "codigoAutorizacion", filters);
    assert done + {"tipoDoc", "nroDoc", "codigoAutorizacion"} == done + {"tipoDoc", "nroDoc"} + {"codigoAutorizacion"};
  }

  /** Once every filter key has been considered, the dictionary is the reference one. */
  lemma FiltersComplete(p: Schema.Params, f: map<string, Value>)
    requires FiltersSoFar(p, f, {"t", "fechaEmision", "puntosVenta", "tiposComprobantes", "comprobanteDesde",
      "comprobanteHasta", "tipoDoc", "nroDoc", "codigoAutorizacion"})
    ensures f == Filters(p)
  {
    var all := {"t", "fechaEmision", "puntosVenta", "tiposComprobantes", "comprobanteDesde",
      "comprobanteHasta", "tipoDoc", "nroDoc", "codigoAutorizacion"};
    assert forall k :: k in all <==> k in FilterKeys;
    assert f.Keys == Filters(p).Keys;
  }

  /** A key is in `filters` iff its field is defined, and it holds that field's value. */
  lemma FiltersHoldDefinedFields(p: Schema.Params, k: string)
    ensures k in Filters(p) <==> FilterEntry(p, k).Some?
    ensures k in Filters(p) ==> Filters(p)[k] == FilterEntry(p, k).value
  {
    FilterEntryKeys(p, k);
  }

  /**
   * The direction and the issue dates are required fields, so once the
   * arguments are accepted the filters are never empty and `data` always
   * carries them.
   */
  lemma FiltersNeverEmpty(p: Schema.Params)
    ensures "t" in Filters(p) && Filters(p)["t"] == Str(p.t)
    ensures "fechaEmision" in Filters(p) && Filters(p)["fechaEmision"] == Str(p.fechaEmision)
    ensures |Filters(p)| >= 2
  {
    var f := Filters(p);
    assert {"t", "fechaEmision"} <= f.Keys;
    assert |{"t", "fechaEmision"}| == 2;
    assert |f.Keys| >= 2 by {
      SubsetCardinality({"t", "fechaEmision"}, f.Keys);
    }
  }

  lemma SubsetCardinality(a: set<string>, b: set<string>)
    requires a <= b
    ensures |a| <= |b|
  {
    assert b == a + (b - a);
  }

  // ---------------------------------------------------------------------------
  // The request and the response
  // ---------------------------------------------------------------------------

  /** `data`: the CUIT twice (as `cuit` and `username`), the password, and the filters unless empty. */
  function MakeData(config: Config, filters: map<string, Value>): (d: AutomationData)
    ensures d.cuit == config.cuit && d.username == d.cuit && d.password == config.password
    ensures d.filters.Some? <==> |filters| > 0
    ensures d.filters.Some? ==> d.filters.value == filters
  {
    AutomationData(config.cuit, config.cuit, config.password, if |filters| > 0 then Some(filters) else None)
  }

  /** `error instanceof Error ? error.message : String(error)`. */
  function ErrorText(e: Value): (r: Value)
    ensures e.Obj? && e.kind.ErrorObject? ==> r == Get(e, "message")
    ensures !(e.Obj? && e.kind.ErrorObject?) ==> r == Str(ToJsString(e))
  {
    if e.Obj? && e.kind.ErrorObject? then Get(e, "message") else Str(ToJsString(e))
  }

  /** The catch block's answer: `{ success: false, error }` marked as an error. */
  function ErrorResponse(e: Value): (r: ToolResponse)
    ensures r.isError
    ensures Get(r.body, "success") == Bool(false)
    ensures Get(r.body, "error") == ErrorText(e)
  {
    var props := [Property("success", Bool(false)), Property("error", ErrorText(e))];
    LookupAt(props, 0);
    LookupAt(props, 1);
    ToolResponse(Record(props), true)
  }

  /** The `ZodError` that `parse` throws, an `Error` whose message renders the issues. */
  function ZodError(issues: seq<Validation.Issue>, render: seq<Validation.Issue> -> string): (e: Value)
    ensures e.Obj? && e.kind.ErrorObject? && Get(e, "message") == Str(render(issues))
  {
    Obj([], ErrorObject(render(issues)))
  }

  /**
   * `MisComprobantesTool.execute`: validate, build the filters and the
   * data, run the automation (waiting unless told not to) and answer with
   * its response; anything thrown on the way is an error answer.
   */
  method Execute(params: Value, config: Config, automation: Automation, render: seq<Validation.Issue> -> string)
    returns (r: ToolResponse)
    ensures Schema.Parse(params).Failure? ==> r == ErrorResponse(ZodError(Schema.Parse(params).error, render))
    ensures Schema.Parse(params).Success? ==>
      var p := Schema.Parse(params).value;
      match automation(AutomationName, MakeData(config, Filters(p)), p.wait)
      case Answered(v) => r == ToolResponse(v, false)
      case Threw(e) => r == ErrorResponse(e)
  {
    var parsed := Schema.Parse(params);
    if parsed.Failure? {
      return ErrorResponse(ZodError(parsed.error, render));
    }
    var input := parsed.value;
    var filters := BuildFilters(input);
    var data := MakeData(config, filters);
    var outcome := automation(AutomationName, data, input.wait);
    match outcome
    case Answered(v) => r := ToolResponse(v, false);
    case Threw(e) => r := ErrorResponse(e);
  }

  /** Accepted arguments always reach the automation with their filters, and `wait` is true unless given as false. */
  lemma AcceptedCallCarriesFilters(params: Value, config: Config)
    requires Schema.Parse(params).Success?
    ensures var p := Schema.Parse(params).value;
      var d := MakeData(config, Filters(p));
      && d.filters.Some? && d.filters.value["t"] == Get(params, "t")
      && d.username == config.cuit
      && (p.wait <==> !(Get(params, "wait") == Bool(false)))
  {
    var p := Schema.Parse(params).value;
    FiltersNeverEmpty(p);
  }
}
