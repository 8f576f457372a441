/**
 * The input schema of the date-range voucher locator: point of sale and
 * voucher type (at least 1), the two `YYYYMMDD` bounds, the batch size
 * (1..50, default 20), the safety cap (1..1000, default 500) and whether
 * the recipient's document is reported (default false). Nothing relates
 * the two dates to each other.
 */
module InvoicesInDateRangeSchema {
  import opened Wrappers
  import opened JsValue
  import opened Validation
  import Text

  const DefaultBatchSize: int := 20
  const MaxBatchSize: int := 50
  const DefaultMaxVouchers: int := 500
  const MaxMaxVouchers: int := 1000

  /** The tool's arguments as received. */
  datatype RawParams = RawParams(
    ptoVta: Value,
    cbteTipo: Value,
    fechaDesde: Value,
    fechaHasta: Value,
    batchSize: Value,
    maxVouchers: Value,
    includeDetails: Value)

  /** The arguments once the schema accepted them, defaults applied. */
  datatype Params = Params(
    ptoVta: int,
    cbteTipo: int,
    fechaDesde: string,
    fechaHasta: string,
    batchSize: int,
    maxVouchers: int,
    includeDetails: bool)

  /** What the schema guarantees of the arguments it accepts. */
  predicate Valid(p: Params)
  {
    && p.ptoVta >= 1 && p.cbteTipo >= 1
    && Text.IsDigits(p.fechaDesde, 8) && Text.IsDigits(p.fechaHasta, 8)
    && 1 <= p.batchSize <= MaxBatchSize
    && 1 <= p.maxVouchers <= MaxMaxVouchers
  }

  /** `GetInvoicesInDateRangeSchema.parse`: every field is checked, issues in field order. */
  function Parse(raw: RawParams): (r: Result<Params, seq<Issue>>)
    ensures r.Success? <==>
      && raw.ptoVta.Num? && raw.ptoVta.n >= 1
      && raw.cbteTipo.Num? && raw.cbteTipo.n >= 1
      && raw.fechaDesde.Str? && Text.IsDigits(raw.fechaDesde.s, 8)
      && raw.fechaHasta.Str? && Text.IsDigits(raw.fechaHasta.s, 8)
      && (raw.batchSize.Undefined? || (raw.batchSize.Num? && 1 <= raw.batchSize.n <= MaxBatchSize))
      && (raw.maxVouchers.Undefined? || (raw.maxVouchers.Num? && 1 <= raw.maxVouchers.n <= MaxMaxVouchers))
      && (raw.includeDetails.Undefined? || raw.includeDetails.Bool?)
    ensures r.Success? ==>
      && r.value.ptoVta == raw.ptoVta.n
      && r.value.cbteTipo == raw.cbteTipo.n
      && r.value.fechaDesde == raw.fechaDesde.s
      && r.value.fechaHasta == raw.fechaHasta.s
      && r.value.batchSize == (if raw.batchSize.Undefined? then DefaultBatchSize else raw.batchSize.n)
      && r.value.maxVouchers == (if raw.maxVouchers.Undefined? then DefaultMaxVouchers else raw.maxVouchers.n)
      && r.value.includeDetails == (raw.includeDetails.Bool? && raw.includeDetails.b)
    ensures r.Success? ==> Valid(r.value)
    ensures r.Failure? ==> r.error != []
  {
    var ptoVta := AtLeast("PtoVta", NumberField("PtoVta", raw.ptoVta), 1);
    var cbteTipo := AtLeast("CbteTipo", NumberField("CbteTipo", raw.cbteTipo), 1);
    var desde := DateField("fechaDesde", raw.fechaDesde);
    var hasta := DateField("fechaHasta", raw.fechaHasta);
    var batch := InRange("batchSize", NumberField("batchSize", Default(raw.batchSize, Num(DefaultBatchSize))), 1, MaxBatchSize);
    var max := InRange("maxVouchers", NumberField("maxVouchers", Default(raw.maxVouchers, Num(DefaultMaxVouchers))), 1, MaxMaxVouchers);
    var details := BooleanField("includeDetails", Default(raw.includeDetails, Bool(false)));
    var issues := IssuesOf(ptoVta) + IssuesOf(cbteTipo) + IssuesOf(desde) + IssuesOf(hasta)
      + IssuesOf(batch) + IssuesOf(max) + IssuesOf(details);
    if ptoVta.Success? && cbteTipo.Success? && desde.Success? && hasta.Success?
      && batch.Success? && max.Success? && details.Success?
    then Success(Params(ptoVta.value, cbteTipo.value, desde.value, hasta.value, batch.value, max.value, details.value))
    else Failure(issues)
  }
}
