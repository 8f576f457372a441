/**
 * The shape of the data an AFIP QR code carries (version 1 of the AFIP QR
 * specification), as a predicate on the JSON object: the fields, their
 * types and their ranges. Unknown keys are allowed and ignored.
 */
module QrSchema {
  import opened JsValue
  import Text
  import GenerateQRSchema

  const MinCodAut: int := 10000000000000
  const MaxCodAut: int := 99999999999999
  const MaxTipoDocRec: int := 99
  const MaxNroDocRec: int := 99999999999999999999

  /** `z.number().int().min(lo).max(hi)` (every number of the model is an integer). */
  predicate IntIn(v: Value, lo: int, hi: int)
  {
    v.Num? && lo <= v.n <= hi
  }

  /** `z.number().min(lo)`. */
  predicate NumberAtLeast(v: Value, lo: int)
  {
    v.Num? && v.n >= lo
  }

  /** `.optional()` around an integer range. */
  predicate OptionalIntIn(v: Value, lo: int, hi: int)
  {
    v.Undefined? || IntIn(v, lo, hi)
  }

  /** `fecha`: four, two and two digits separated by dashes. */
  predicate IsFecha(v: Value)
  {
    v.Str? && GenerateQRSchema.IsIsoDate(v.s)
  }

  /** `moneda`: a string of exactly three characters. */
  predicate IsMoneda(v: Value)
  {
    v.Str? && |v.s| == 3
  }

  /** `tipoCodAut`: `A` (CAEA) or `E` (CAE). */
  predicate IsTipoCodAut(v: Value)
  {
    v == Str("A") || v == Str("E")
  }

  /** `QRDataSchema`: every field of the QR data in its range. */
  predicate Conforms(v: Value)
  {
    && v.Obj?
    && Lookup(v.props, "ver") == Num(1)
    && IsFecha(Lookup(v.props, "fecha"))
    && IntIn(Lookup(v.props, "cuit"), GenerateQRSchema.MinCuit, GenerateQRSchema.MaxCuit)
    && IntIn(Lookup(v.props, "ptoVta"), 1, GenerateQRSchema.MaxPtoVta)
    && IntIn(Lookup(v.props, "tipoCmp"), 1, GenerateQRSchema.MaxCbteTipo)
    && IntIn(Lookup(v.props, "nroCmp"), 1, GenerateQRSchema.MaxCbteNro)
    && NumberAtLeast(Lookup(v.props, "importe"), 0)
    && IsMoneda(Lookup(v.props, "moneda"))
    && NumberAtLeast(Lookup(v.props, "ctz"), 0)
    && OptionalIntIn(Lookup(v.props, "tipoDocRec"), 1, MaxTipoDocRec)
    && OptionalIntIn(Lookup(v.props, "nroDocRec"), 1, MaxNroDocRec)
    && IsTipoCodAut(Lookup(v.props, "tipoCodAut"))
    && IntIn(Lookup(v.props, "codAut"), MinCodAut, MaxCodAut)
  }

  /** A `cuit` in its range is exactly a number written with 11 digits. */
  lemma CuitIsElevenDigits(v: Value)
    ensures IntIn(v, GenerateQRSchema.MinCuit, GenerateQRSchema.MaxCuit) <==> v.Num? && Text.IsDigits(ToJsString(v), 11)
  {
    if v.Num? {
      GenerateQRSchema.CuitDigits(v.n);
    }
  }

  /** A `codAut` in its range is exactly a number written with 14 digits. */
  lemma CodAutIsFourteenDigits(n: int)
    ensures MinCodAut <= n <= MaxCodAut <==> Text.IsDigits(NumberToString(n), 14)
  {
    if n < 0 {
      assert !Text.IsDigit(NumberToString(n)[0]);
    } else {
      Text.NatToStringLength(n, 14);
      assert Text.Pow10(13) == MinCodAut;
      assert Text.Pow10(14) == MaxCodAut + 1;
    }
  }
}
