/**
 * The input schema of the QR generator: the argument object is first
 * preprocessed so that the lower-case field names of the AFIP QR
 * specification (`fecha`, `ptoVta`, `cuit`, ...) may stand for the
 * voucher-style names (`CbteFch`, `PtoVta`, `Cuit`, ...); then every field
 * is converted and checked; then three rules relating fields are applied.
 *
 * Numbers are integers in this model, so the numeric conversions of
 * strings are those of integer literals (see `StringToNumber`); `NaN`
 * stands for every value the conversions reject.
 */
module GenerateQRSchema {
  import opened Wrappers
  import opened JsValue
  import opened Validation
  import Text

  // ---------------------------------------------------------------------------
  // Numeric conversions
  // ---------------------------------------------------------------------------

  /** A JavaScript number as far as the schema looks at it: finite, or not a number. */
  datatype Numeric = Finite(n: int) | NaN

  /**
   * `Number(s)` for the strings this model reads: white space around the
   * text is ignored, the empty text is 0, and an optionally signed run of
   * decimal digits is its value. Every other text is `NaN` here.
   */
  function StringToNumber(s: string): (r: Numeric)
    ensures Text.IsDigitRun(Text.Trim(s)) ==> r == Finite(Text.Value(Text.Trim(s)))
  {
    var t := Text.Trim(s);
    if t == [] then Finite(0)
    else if (t[0] == '-' || t[0] == '+') && Text.IsDigitRun(t[1..]) then
      var k: int := Text.Value(t[1..]);
      Finite(if t[0] == '-' then -k else k)
    else if Text.IsDigitRun(t) then Finite(Text.Value(t))
    else NaN
  }

  /** `toNumber`: numbers as they are, strings through `Number`, `NaN` for the rest. */
  function ToNumber(v: Value): (r: Numeric)
    ensures v.Num? ==> r == Finite(v.n)
    ensures !v.Num? && !v.Str? ==> r == NaN
  {
    match v
    case Num(n) => Finite(n)
    case Str(s) => StringToNumber(s)
    case _ => NaN
  }

  /** `toInt`: `Math.trunc(toNumber(v))`; truncation leaves integers as they are. */
  function ToInt(v: Value): (r: Numeric)
    ensures r == ToNumber(v)
  {
    ToNumber(v)
  }

  /** `String(n)` for a number of this model. */
  function NumericToString(n: Numeric): string
  {
    match n
    case Finite(k) => NumberToString(k)
    case NaN => "NaN"
  }

  /** A number written out by `String` reads back as itself. */
  lemma ToNumberReadsText(n: int)
    ensures ToNumber(Str(NumberToString(n))) == Finite(n)
  {
    if n < 0 {
      Text.NatToStringReads(-n);
      NegativeText(Text.NatToString(-n));
    } else {
      Text.NatToStringReads(n);
      DigitsText(Text.NatToString(n));
    }
  }

  /** A run of digits reads as its value. */
  lemma DigitsText(d: string)
    requires Text.IsDigitRun(d)
    ensures StringToNumber(d) == Finite(Text.Value(d))
  {
    TrimDigits(d);
  }

  /** A run of digits has no white space to trim. */
  lemma TrimDigits(d: string)
    requires Text.IsDigitRun(d)
    ensures Text.Trim(d) == d
  {
    assert Text.IsDigit(d[0]) && Text.IsDigit(d[|d| - 1]);
    Text.TrimNoop(d);
  }

  /** A minus sign followed by a run of digits reads as the negated value. */
  lemma NegativeText(d: string)
    requires Text.IsDigitRun(d)
    ensures StringToNumber("-" + d) == Finite(-(Text.Value(d) as int))
  {
    var t := "-" + d;
    assert t[1..] == d;
    assert t[|t| - 1] == d[|d| - 1];
    assert !Text.IsJsWhitespace(t[0]) && !Text.IsJsWhitespace(t[|t| - 1]);
    Text.TrimNoop(t);
    assert t[0] == '-' && Text.IsDigitRun(t[1..]);
  }

  // ---------------------------------------------------------------------------
  // The date of the voucher
  // ---------------------------------------------------------------------------

  /** `YYYY-MM-DD` in decimal digits. */
  predicate IsIsoDate(s: string)
  {
    && |s| == 10
    && Text.IsDigits(s[..4], 4) && s[4] == '-'
    && Text.IsDigits(s[5..7], 2) && s[7] == '-'
    && Text.IsDigits(s[8..], 2)
  }

  /**
   * `normalizeCbteFch`: a non-string becomes `String(v ?? "")`; a string is
   * trimmed, kept when it is eight digits, rewritten from `YYYY-MM-DD` to
   * `YYYYMMDD`, and otherwise returned trimmed.
   */
  function NormalizeCbteFch(v: Value): string
  {
    if !v.Str? then ToJsString(Coalesce(v, Str("")))
    else
      var s := Text.Trim(v.s);
      if Text.IsDigits(s, 8) then s
      else if IsIsoDate(s) then s[..4] + s[5..7] + s[8..10]
      else s
  }

  /** The three cases of `normalizeCbteFch` on a string. */
  lemma NormalizeCbteFchCases(s: string)
    ensures Text.IsDigits(Text.Trim(s), 8) ==> NormalizeCbteFch(Str(s)) == Text.Trim(s)
    ensures IsIsoDate(Text.Trim(s)) ==>
      var t := Text.Trim(s);
      NormalizeCbteFch(Str(s)) == t[..4] + t[5..7] + t[8..]
    ensures !Text.IsDigits(Text.Trim(s), 8) && !IsIsoDate(Text.Trim(s)) ==> NormalizeCbteFch(Str(s)) == Text.Trim(s)
  {
    var t := Text.Trim(s);
    if IsIsoDate(t) {
      assert |t| == 10 && t[8..10] == t[8..];
    }
  }

  /** Dropping the dashes of an ISO date leaves eight digits. */
  lemma IsoDateDigits(t: string)
    requires IsIsoDate(t)
    ensures Text.IsDigits(t[..4] + t[5..7] + t[8..10], 8)
  {
    var y, m, d := t[..4], t[5..7], t[8..10];
    assert d == t[8..];
    var r := y + m + d;
    forall i | 0 <= i < 8
      ensures Text.IsDigit(r[i])
    {
      if i < 4 {
        assert r[i] == y[i];
      } else if i < 6 {
        assert r[i] == m[i - 4];
      } else {
        assert r[i] == d[i - 6];
      }
    }
  }

  /** The normalised date is eight digits exactly when the text was eight digits or an ISO date. */
  lemma NormalizeCbteFchAccepts(s: string)
    ensures Text.IsDigits(NormalizeCbteFch(Str(s)), 8) <==>
      Text.IsDigits(Text.Trim(s), 8) || IsIsoDate(Text.Trim(s))
  {
    var t := Text.Trim(s);
    assert NormalizeCbteFch(Str(s)) == if Text.IsDigits(t, 8) then t else if IsIsoDate(t) then t[..4] + t[5..7] + t[8..10] else t;
    if !Text.IsDigits(t, 8) && IsIsoDate(t) {
      IsoDateDigits(t);
    }
  }

  /** Normalising a normalised date changes nothing. */
  lemma NormalizeCbteFchIdempotent(s: string)
    ensures NormalizeCbteFch(Str(NormalizeCbteFch(Str(s)))) == NormalizeCbteFch(Str(s))
  {
    var t := Text.Trim(s);
    var r := NormalizeCbteFch(Str(s));
    NormalizeCbteFchAccepts(s);
    if Text.IsDigits(r, 8) {
      assert !Text.IsJsWhitespace(r[0]) by { assert Text.IsDigit(r[0]); }
      assert !Text.IsJsWhitespace(r[7]) by { assert Text.IsDigit(r[7]); }
      Text.TrimNoop(r);
    } else {
      assert r == t;
      Text.TrimIdempotent(s);
    }
  }

  // ---------------------------------------------------------------------------
  // Per-field conversions and checks
  // ---------------------------------------------------------------------------

  const MsgCbteFch := "Fecha del comprobante (yyyyMMdd)."
  const MsgCuitNumeric := "'Cuit' debe ser numérico"
  const MsgCuitNegative := "'Cuit' no puede ser negativo"
  const MsgCuitDigits := "'Cuit' debe tener 11 dígitos"
  const MsgPtoVta := "Punto de venta del comprobante."
  const MsgPtoVtaDigits := "'PtoVta' debe tener hasta 5 dígitos"
  const MsgCbteTipo := "Tipo de comprobante informado."
  const MsgCbteTipoDigits := "'CbteTipo' debe tener hasta 3 dígitos"
  const MsgCbteNro := "Número de comprobante"
  const MsgCbteNroDigits := "'CbteNro' debe tener hasta 8 dígitos"
  const MsgImpTotal := "Importe total del comprobante."
  const MsgMonId := "Código de moneda (ej: PES)."
  const MsgMonCotiz := "Cotización de la moneda. Para PES debe ser 1"
  const MsgDocTipo := "Código de documento del comprador."
  const MsgDocNro := "Número de identificación del comprador."
  const MsgDocPair := "'DocTipo' y 'DocNro' deben informarse juntos o no informarse"
  const MsgCodAutDigits := "'CodAut' debe ser numérico (solo dígitos)"
  const MsgCodAutLength := "'CodAut' (CAE) debe tener 14 dígitos"
  const MsgPesRate := "'MonCotiz' debe ser 1 cuando 'MonId' = 'PES'"

  const MinCuit: int := 10000000000
  const MaxCuit: int := 99999999999
  const MaxPtoVta: int := 99999
  const MaxCbteTipo: int := 999
  const MaxCbteNro: int := 99999999
  const DocTypes: seq<int> := [80, 96, 99]

  /** `z.union([z.number(), z.string()])`. */
  function NumberOrString(path: string, v: Value): (r: Checked<Value>)
    ensures r.Success? <==> v.Num? || v.Str?
    ensures r.Success? ==> r.value == v
    ensures r.Failure? ==> r.error != []
  {
    if v.Num? || v.Str? then Success(v)
    else if v.Undefined? then Failure([Issue(path, Required)])
    else Failure([Issue(path, InvalidUnion)])
  }

  /** The refinements' issues, or the value when there are none. */
  function Refined<T>(issues: seq<Issue>, value: T): (r: Checked<T>)
    ensures r.Success? <==> issues == []
    ensures r.Success? ==> r.value == value
    ensures r.Failure? ==> r.error == issues
  {
    if issues == [] then Success(value) else Failure(issues)
  }

  /** The integer a number-or-string field converts to, when it converts to one. */
  predicate IntegerIn(v: Value, lo: int, hi: int)
  {
    (v.Num? || v.Str?) && ToInt(v).Finite? && lo <= ToInt(v).n <= hi
  }

  /** `Ver`: `z.literal(1).default(1)`. */
  function VerField(v: Value): (r: Checked<int>)
    ensures r.Success? <==> v.Undefined? || v == Num(1)
    ensures r.Success? ==> r.value == 1
    ensures r.Failure? ==> r.error != []
  {
    if v.Undefined? || v == Num(1) then Success(1) else Failure([Issue("Ver", InvalidLiteral(1))])
  }

  /** `CbteFch`: a string, normalised, then eight digits. */
  function CbteFchField(v: Value): (r: Checked<string>)
    ensures r.Success? <==> v.Str? && (Text.IsDigits(Text.Trim(v.s), 8) || IsIsoDate(Text.Trim(v.s)))
    ensures r.Success? ==> r.value == NormalizeCbteFch(v) && Text.IsDigits(r.value, 8)
    ensures r.Failure? ==> r.error != []
  {
    match StringField("CbteFch", v)
    case Failure(e) => Failure(e)
    case Success(s) =>
      NormalizeCbteFchAccepts(s);
      var d := NormalizeCbteFch(Str(s));
      Refined(Check(Text.IsDigits(d, 8), "CbteFch", Custom(MsgCbteFch)), d)
  }

  /** `Cuit`: converted to an integer, finite, not negative, and written with 11 digits. */
  function CuitField(v: Value): (r: Checked<int>)
    ensures r.Success? <==> IntegerIn(v, MinCuit, MaxCuit)
    ensures r.Success? ==> r.value == ToInt(v).n
    ensures r.Failure? ==> r.error != []
  {
    match NumberOrString("Cuit", v)
    case Failure(e) => Failure(e)
    case Success(u) =>
      var n := ToInt(u);
      CuitDigitsOf(n);
      Refined(
        Check(n.Finite?, "Cuit", Custom(MsgCuitNumeric))
        + Check(n.Finite? && n.n >= 0, "Cuit", Custom(MsgCuitNegative))
        + Check(Text.IsDigits(NumericToString(n), 11), "Cuit", Custom(MsgCuitDigits)),
        if n.Finite? then n.n else 0)
  }

  /** Written in decimal, a number has 11 digits exactly when it lies between the smallest and largest CUIT. */
  lemma CuitDigits(n: int)
    ensures Text.IsDigits(NumberToString(n), 11) <==> MinCuit <= n <= MaxCuit
  {
    if n < 0 {
      assert !Text.IsDigit(NumberToString(n)[0]);
    } else {
      Text.NatToStringLength(n, 11);
      assert Text.Pow10(10) == MinCuit;
      assert Text.Pow10(11) == MaxCuit + 1;
    }
  }

  lemma CuitDigitsOf(n: Numeric)
    ensures Text.IsDigits(NumericToString(n), 11) <==> n.Finite? && MinCuit <= n.n <= MaxCuit
  {
    if n.Finite? {
      CuitDigits(n.n);
    } else {
      assert !Text.IsDigit(NumericToString(n)[0]);
    }
  }

  /** A positive count with an upper bound: `PtoVta`, `CbteTipo`, `CbteNro`. */
  function CountField(path: string, v: Value, max: int, rule: string, bound: string): (r: Checked<int>)
    ensures r.Success? <==> IntegerIn(v, 1, max)
    ensures r.Success? ==> r.value == ToInt(v).n
    ensures r.Failure? ==> r.error != []
  {
    match NumberOrString(path, v)
    case Failure(e) => Failure(e)
    case Success(u) =>
      var n := ToInt(u);
      Refined(
        Check(n.Finite? && n.n >= 1, path, Custom(rule))
        + Check(n.Finite? && n.n <= max, path, Custom(bound)),
        if n.Finite? then n.n else 0)
  }

  /** `ImpTotal` (`strict` false: at least 0) and `MonCotiz` (`strict` true: above 0). */
  function AmountField(path: string, v: Value, strict: bool, rule: string): (r: Checked<int>)
    ensures r.Success? <==> (v.Num? || v.Str?) && ToNumber(v).Finite? && (if strict then ToNumber(v).n > 0 else ToNumber(v).n >= 0)
    ensures r.Success? ==> r.value == ToNumber(v).n
    ensures r.Failure? ==> r.error != []
  {
    match NumberOrString(path, v)
    case Failure(e) => Failure(e)
    case Success(u) =>
      var n := ToNumber(u);
      var ok := n.Finite? && (if strict then n.n > 0 else n.n >= 0);
      Refined(Check(ok, path, Custom(rule)), if n.Finite? then n.n else 0)
  }

  /** Three upper-case letters A to Z. */
  predicate IsCurrencyCode(s: string)
  {
    |s| == 3 && forall i :: 0 <= i < 3 ==> Text.IsUpperLetter(s[i])
  }

  /** `MonId`: a string, trimmed and upper-cased, then three letters. */
  function MonIdField(v: Value): (r: Checked<string>)
    ensures r.Success? <==> v.Str? && IsCurrencyCode(Text.ToUpper(Text.Trim(v.s)))
    ensures r.Success? ==> r.value == Text.ToUpper(Text.Trim(v.s))
    ensures r.Failure? ==> r.error != []
  {
    match StringField("MonId", v)
    case Failure(e) => Failure(e)
    case Success(s) =>
      var m := Text.ToUpper(Text.Trim(s));
      Refined(Check(IsCurrencyCode(m), "MonId", Custom(MsgMonId)), m)
  }

  /** `DocTipo`: optional; when given, converted to an integer among 80, 96 and 99. */
  function DocTipoField(v: Value): (r: Checked<Option<int>>)
    ensures r.Success? <==> v.Undefined? || ((v.Num? || v.Str?) && ToInt(v).Finite? && ToInt(v).n in DocTypes)
    ensures r.Success? ==> r.value == if v.Undefined? then None else Some(ToInt(v).n)
    ensures r.Failure? ==> r.error != []
  {
    if v.Undefined? then Success(None)
    else match NumberOrString("DocTipo", v)
      case Failure(e) => Failure(e)
      case Success(u) =>
        var n := ToInt(u);
        Refined(Check(n.Finite? && n.n in DocTypes, "DocTipo", Custom(MsgDocTipo)), Some(if n.Finite? then n.n else 0))
  }

  /** `DocNro`: optional; when given, converted to an integer of at least 0. */
  function DocNroField(v: Value): (r: Checked<Option<int>>)
    ensures r.Success? <==> v.Undefined? || ((v.Num? || v.Str?) && ToInt(v).Finite? && ToInt(v).n >= 0)
    ensures r.Success? ==> r.value == if v.Undefined? then None else Some(ToInt(v).n)
    ensures r.Failure? ==> r.error != []
  {
    if v.Undefined? then Success(None)
    else match NumberOrString("DocNro", v)
      case Failure(e) => Failure(e)
      case Success(u) =>
        var n := ToInt(u);
        Refined(Check(n.Finite? && n.n >= 0, "DocNro", Custom(MsgDocNro)), Some(if n.Finite? then n.n else 0))
  }

  /** `TipoCodAut`: `E` (CAE) or `A` (CAEA), `E` when absent. */
  function TipoCodAutField(v: Value): (r: Checked<string>)
    ensures r.Success? <==> v.Undefined? || v == Str("E") || v == Str("A")
    ensures r.Success? ==> r.value == if v.Undefined? then "E" else v.s
    ensures r.Failure? ==> r.error != []
  {
    if v.Undefined? then Success("E")
    else if v == Str("E") || v == Str("A") then Success(v.s)
    else Failure([Issue("TipoCodAut", InvalidEnum(["E", "A"]))])
  }

  /** `CodAut`: a string or a number, turned into its text. */
  function CodAutField(v: Value): (r: Checked<string>)
    ensures r.Success? <==> v.Num? || v.Str?
    ensures r.Success? ==> r.value == ToJsString(v)
    ensures r.Failure? ==> r.error != []
  {
    match NumberOrString("CodAut", v)
    case Failure(e) => Failure(e)
    case Success(u) => Success(ToJsString(u))
  }

  // ---------------------------------------------------------------------------
  // The whole object
  // ---------------------------------------------------------------------------

  /** The fields once converted. */
  datatype QrFields = QrFields(
    ver: int,
    cbteFch: string,
    cuit: int,
    ptoVta: int,
    cbteTipo: int,
    cbteNro: int,
    impTotal: int,
    monId: string,
    monCotiz: int,
    docTipo: Option<int>,
    docNro: Option<int>,
    tipoCodAut: string,
    codAut: string)

  /** What the per-field checks guarantee. */
  predicate FieldsValid(f: QrFields)
  {
    && f.ver == 1
    && Text.IsDigits(f.cbteFch, 8)
    && MinCuit <= f.cuit <= MaxCuit
    && 1 <= f.ptoVta <= MaxPtoVta
    && 1 <= f.cbteTipo <= MaxCbteTipo
    && 1 <= f.cbteNro <= MaxCbteNro
    && f.impTotal >= 0
    && IsCurrencyCode(f.monId)
    && f.monCotiz > 0
    && (f.docTipo.Some? ==> f.docTipo.value in DocTypes)
    && (f.docNro.Some? ==> f.docNro.value >= 0)
    && (f.tipoCodAut == "E" || f.tipoCodAut == "A")
  }

  /** What the rules relating fields demand. */
  predicate CrossRulesHold(f: QrFields)
  {
    && (f.docTipo.Some? <==> f.docNro.Some?)
    && Text.IsDigits(f.codAut, 14)
    && (f.monId == "PES" ==> f.monCotiz == 1)
  }

  /** Every field of an object accepted by its own check. */
  predicate FieldsAccepted(props: seq<Property>)
  {
    IdentityAccepted(props) && AmountsAccepted(props)
  }

  /** The fields that identify the voucher: version, date, issuer, point of sale, type and number. */
  predicate IdentityAccepted(props: seq<Property>)
  {
    && VerField(Lookup(props, "Ver")).Success?
    && CbteFchField(Lookup(props, "CbteFch")).Success?
    && CuitField(Lookup(props, "Cuit")).Success?
    && CountField("PtoVta", Lookup(props, "PtoVta"), MaxPtoVta, MsgPtoVta, MsgPtoVtaDigits).Success?
    && CountField("CbteTipo", Lookup(props, "CbteTipo"), MaxCbteTipo, MsgCbteTipo, MsgCbteTipoDigits).Success?
    && CountField("CbteNro", Lookup(props, "CbteNro"), MaxCbteNro, MsgCbteNro, MsgCbteNroDigits).Success?
  }

  /** The remaining fields: amounts, currency, receiver and authorisation code. */
  predicate AmountsAccepted(props: seq<Property>)
  {
    && AmountField("ImpTotal", Lookup(props, "ImpTotal"), false, MsgImpTotal).Success?
    && MonIdField(Lookup(props, "MonId")).Success?
    && AmountField("MonCotiz", Lookup(props, "MonCotiz"), true, MsgMonCotiz).Success?
    && DocTipoField(Lookup(props, "DocTipo")).Success?
    && DocNroField(Lookup(props, "DocNro")).Success?
    && TipoCodAutField(Lookup(props, "TipoCodAut")).Success?
    && CodAutField(Lookup(props, "CodAut")).Success?
  }

  /**
   * The object schema: a non-object is refused; otherwise every field is
   * checked and the issues are listed in field order. Keys the schema
   * does not name are dropped.
   */
  function ParseFields(v: Value): (r: Checked<QrFields>)
    ensures r.Success? <==> v.Obj? && FieldsAccepted(v.props)
    ensures r.Success? ==> FieldsValid(r.value)
    ensures r.Success? ==>
      && r.value.cuit == ToInt(Lookup(v.props, "Cuit")).n
      && r.value.ptoVta == ToInt(Lookup(v.props, "PtoVta")).n
      && r.value.cbteTipo == ToInt(Lookup(v.props, "CbteTipo")).n
      && r.value.cbteNro == ToInt(Lookup(v.props, "CbteNro")).n
      && r.value.codAut == ToJsString(Lookup(v.props, "CodAut"))
      && r.value.cbteFch == NormalizeCbteFch(Lookup(v.props, "CbteFch"))
    ensures r.Success? ==> r.value == AcceptedFields(v.props)
    ensures v.Obj? && r.Failure? ==> r.error == FieldIssues(v.props)
    ensures r.Failure? ==> r.error != []
  {
    if !v.Obj? then Failure([Issue("", InvalidType("object"))])
    else if FieldsAccepted(v.props) then Success(AcceptedFields(v.props))
    else Failure(FieldIssues(v.props))
  }

  /** Every field's issues, in field order: at least one when some field fails, none when all pass. */
  function FieldIssues(props: seq<Property>): (r: seq<Issue>)
    ensures !FieldsAccepted(props) ==> r != []
    ensures FieldsAccepted(props) ==> r == []
  {
    IdentityIssues(props) + AmountsIssues(props)
  }

  /** The issues of the identifying fields, in field order. */
  function IdentityIssues(props: seq<Property>): (r: seq<Issue>)
    ensures !IdentityAccepted(props) ==> r != []
  {
    IssuesOf(VerField(Lookup(props, "Ver")))
    + IssuesOf(CbteFchField(Lookup(props, "CbteFch")))
    + IssuesOf(CuitField(Lookup(props, "Cuit")))
    + IssuesOf(CountField("PtoVta", Lookup(props, "PtoVta"), MaxPtoVta, MsgPtoVta, MsgPtoVtaDigits))
    + IssuesOf(CountField("CbteTipo", Lookup(props, "CbteTipo"), MaxCbteTipo, MsgCbteTipo, MsgCbteTipoDigits))
    + IssuesOf(CountField("CbteNro", Lookup(props, "CbteNro"), MaxCbteNro, MsgCbteNro, MsgCbteNroDigits))
  }

  /** The issues of the remaining fields, in field order. */
  function AmountsIssues(props: seq<Property>): (r: seq<Issue>)
    ensures !AmountsAccepted(props) ==> r != []
  {
    IssuesOf(AmountField("ImpTotal", Lookup(props, "ImpTotal"), false, MsgImpTotal))
    + IssuesOf(MonIdField(Lookup(props, "MonId")))
    + IssuesOf(AmountField("MonCotiz", Lookup(props, "MonCotiz"), true, MsgMonCotiz))
    + IssuesOf(DocTipoField(Lookup(props, "DocTipo")))
    + IssuesOf(DocNroField(Lookup(props, "DocNro")))
    + IssuesOf(TipoCodAutField(Lookup(props, "TipoCodAut")))
    + IssuesOf(CodAutField(Lookup(props, "CodAut")))
  }

  /** The values of an object whose every field passed, as the checks converted them. */
  function AcceptedFields(props: seq<Property>): (r: QrFields)
    requires FieldsAccepted(props)
    ensures FieldsValid(r)
    ensures && r.cuit == ToInt(Lookup(props, "Cuit")).n
            && r.ptoVta == ToInt(Lookup(props, "PtoVta")).n
            && r.cbteTipo == ToInt(Lookup(props, "CbteTipo")).n
            && r.cbteNro == ToInt(Lookup(props, "CbteNro")).n
            && r.codAut == ToJsString(Lookup(props, "CodAut"))
            && r.cbteFch == NormalizeCbteFch(Lookup(props, "CbteFch"))
  {
    QrFields(
      VerField(Lookup(props, "Ver")).value,
      CbteFchField(Lookup(props, "CbteFch")).value,
      CuitField(Lookup(props, "Cuit")).value,
      CountField("PtoVta", Lookup(props, "PtoVta"), MaxPtoVta, MsgPtoVta, MsgPtoVtaDigits).value,
      CountField("CbteTipo", Lookup(props, "CbteTipo"), MaxCbteTipo, MsgCbteTipo, MsgCbteTipoDigits).value,
      CountField("CbteNro", Lookup(props, "CbteNro"), MaxCbteNro, MsgCbteNro, MsgCbteNroDigits).value,
      AmountField("ImpTotal", Lookup(props, "ImpTotal"), false, MsgImpTotal).value,
      MonIdField(Lookup(props, "MonId")).value,
      AmountField("MonCotiz", Lookup(props, "MonCotiz"), true, MsgMonCotiz).value,
      DocTipoField(Lookup(props, "DocTipo")).value,
      DocNroField(Lookup(props, "DocNro")).value,
      TipoCodAutField(Lookup(props, "TipoCodAut")).value,
      CodAutField(Lookup(props, "CodAut")).value)
  }

  /** The issues the rules relating fields raise, in the order they are checked. */
  function CrossFieldIssues(f: QrFields): (r: seq<Issue>)
    ensures r == [] <==> CrossRulesHold(f)
  {
    var cod := f.codAut;
    Check(f.docTipo.Some? == f.docNro.Some?, "DocNro", Custom(MsgDocPair))
    + Check(Text.IsDigitRun(cod), "CodAut", Custom(MsgCodAutDigits))
    + Check(|cod| == 14, "CodAut", Custom(MsgCodAutLength))
    + Check(!(f.monId == "PES" && f.monCotiz != 1), "MonCotiz", Custom(MsgPesRate))
  }

  /** A value the number-or-string union accepts. */
  predicate NumOrStr(v: Value) { v.Num? || v.Str? }

  /**
   * Some field fails in a way that aborts the object in Zod 3: a wrong
   * type, a union or enumeration no option of which accepts the value, or
   * a wrong literal. A failed `.refine` only marks the object dirty.
   */
  predicate Aborts(props: seq<Property>)
  {
    IdentityAborts(props) || AmountsAborts(props)
  }

  /** An identifying field aborts. */
  predicate IdentityAborts(props: seq<Property>)
  {
    || !(Lookup(props, "Ver").Undefined? || Lookup(props, "Ver") == Num(1))
    || !Lookup(props, "CbteFch").Str?
    || !NumOrStr(Lookup(props, "Cuit"))
    || !NumOrStr(Lookup(props, "PtoVta"))
    || !NumOrStr(Lookup(props, "CbteTipo"))
    || !NumOrStr(Lookup(props, "CbteNro"))
  }

  /** One of the remaining fields aborts. */
  predicate AmountsAborts(props: seq<Property>)
  {
    || !NumOrStr(Lookup(props, "ImpTotal"))
    || !Lookup(props, "MonId").Str?
    || !NumOrStr(Lookup(props, "MonCotiz"))
    || !(Lookup(props, "DocTipo").Undefined? || NumOrStr(Lookup(props, "DocTipo")))
    || !(Lookup(props, "DocNro").Undefined? || NumOrStr(Lookup(props, "DocNro")))
    || TipoCodAutField(Lookup(props, "TipoCodAut")).Failure?
    || !NumOrStr(Lookup(props, "CodAut"))
  }

  /** A converted number as the field keeps it; `NaN` compares unequal to 1 as 0 does. */
  function IntOrZero(n: Numeric): int
  {
    if n.Finite? then n.n else 0
  }

  /** An optional number-or-string field, converted, when given. */
  function OptionalInt(v: Value): Option<int>
  {
    if v.Undefined? then None else Some(IntOrZero(ToInt(v)))
  }

  /**
   * The object Zod hands on when no field aborted: every field converted,
   * whether or not its refinements passed. This is what the rules
   * relating fields look at; when some field aborts it is not used.
   */
  function Converted(props: seq<Property>): (r: QrFields)
  {
    var tipo := Lookup(props, "TipoCodAut");
    var monId := Lookup(props, "MonId");
    QrFields(
      1,
      NormalizeCbteFch(Lookup(props, "CbteFch")),
      IntOrZero(ToInt(Lookup(props, "Cuit"))),
      IntOrZero(ToInt(Lookup(props, "PtoVta"))),
      IntOrZero(ToInt(Lookup(props, "CbteTipo"))),
      IntOrZero(ToInt(Lookup(props, "CbteNro"))),
      IntOrZero(ToNumber(Lookup(props, "ImpTotal"))),
      if monId.Str? then Text.ToUpper(Text.Trim(monId.s)) else "",
      IntOrZero(ToNumber(Lookup(props, "MonCotiz"))),
      OptionalInt(Lookup(props, "DocTipo")),
      OptionalInt(Lookup(props, "DocNro")),
      if tipo.Str? then tipo.s else "E",
      ToJsString(Lookup(props, "CodAut")))
  }

  /** An object whose every field passed aborts nothing, and its accepted fields are its converted ones. */
  lemma ConvertedAgrees(props: seq<Property>)
    requires FieldsAccepted(props)
    ensures !Aborts(props)
    ensures AcceptedFields(props) == Converted(props)
  {
    IdentityConverted(props);
    AmountsConverted(props);
  }

  /** The identifying fields: none aborts, and each accepted value is the converted one. */
  lemma IdentityConverted(props: seq<Property>)
    requires FieldsAccepted(props)
    ensures !IdentityAborts(props)
    ensures var a, c := AcceptedFields(props), Converted(props);
      && a.ver == c.ver && a.cbteFch == c.cbteFch && a.cuit == c.cuit
      && a.ptoVta == c.ptoVta && a.cbteTipo == c.cbteTipo && a.cbteNro == c.cbteNro
  {
    IdentityNotAborted(props);
    IssuerConverted(props);
    CountsConverted(props);
  }

  /** Accepted identifying fields have the types and literal that keep the object from aborting. */
  lemma IdentityNotAborted(props: seq<Property>)
    requires IdentityAccepted(props)
    ensures !IdentityAborts(props)
  {
  }

  /** Version, date and issuer: accepted as converted. */
  lemma IssuerConverted(props: seq<Property>)
    requires FieldsAccepted(props)
    ensures var a, c := AcceptedFields(props), Converted(props);
      a.ver == c.ver && a.cbteFch == c.cbteFch && a.cuit == c.cuit
  {
  }

  /** Point of sale, type and number: accepted as converted. */
  lemma CountsConverted(props: seq<Property>)
    requires FieldsAccepted(props)
    ensures var a, c := AcceptedFields(props), Converted(props);
      a.ptoVta == c.ptoVta && a.cbteTipo == c.cbteTipo && a.cbteNro == c.cbteNro
  {
  }

  /** The remaining fields: none aborts, and each accepted value is the converted one. */
  lemma AmountsConverted(props: seq<Property>)
    requires FieldsAccepted(props)
    ensures !AmountsAborts(props)
    ensures var a, c := AcceptedFields(props), Converted(props);
      && a.impTotal == c.impTotal && a.monId == c.monId && a.monCotiz == c.monCotiz
      && a.docTipo == c.docTipo && a.docNro == c.docNro && a.tipoCodAut == c.tipoCodAut
      && a.codAut == c.codAut
  {
    AmountsNotAborted(props);
    CurrencyConverted(props);
    ReceiverConverted(props);
  }

  /** Accepted remaining fields have the types and options that keep the object from aborting. */
  lemma AmountsNotAborted(props: seq<Property>)
    requires AmountsAccepted(props)
    ensures !AmountsAborts(props)
  {
  }

  /** Total, currency and rate: accepted as converted. */
  lemma CurrencyConverted(props: seq<Property>)
    requires FieldsAccepted(props)
    ensures var a, c := AcceptedFields(props), Converted(props);
      a.impTotal == c.impTotal && a.monId == c.monId && a.monCotiz == c.monCotiz
  {
  }

  /** Receiver document and authorisation code: accepted as converted. */
  lemma ReceiverConverted(props: seq<Property>)
    requires FieldsAccepted(props)
    ensures var a, c := AcceptedFields(props), Converted(props);
      && a.docTipo == c.docTipo && a.docNro == c.docNro && a.tipoCodAut == c.tipoCodAut
      && a.codAut == c.codAut
  {
  }

  /**
   * The object schema followed by the rules relating fields, on the
   * preprocessed input. With Zod 3 the rules run unless the input is not
   * an object or some field aborted, and their issues follow the fields'.
   */
  function Validate(v: Value): (r: Checked<QrFields>)
    ensures ParseFields(v).Success? ==> (r.Success? <==> CrossRulesHold(ParseFields(v).value))
    ensures r.Success? ==> r == ParseFields(v) && FieldsValid(r.value) && CrossRulesHold(r.value)
    ensures ParseFields(v).Failure? ==> r.Failure? && ParseFields(v).error <= r.error
    ensures !v.Obj? || Aborts(v.props) ==> r == ParseFields(v)
    ensures v.Obj? && !Aborts(v.props) ==>
      (r.Success? <==> FieldIssues(v.props) + CrossFieldIssues(Converted(v.props)) == [])
    ensures v.Obj? && !Aborts(v.props) && r.Failure? ==>
      r.error == FieldIssues(v.props) + CrossFieldIssues(Converted(v.props))
    ensures r.Failure? ==> r.error != []
  {
    if !v.Obj? || Aborts(v.props) then
      AbortsRefused(v);
      ParseFields(v)
    else
      var issues := FieldIssues(v.props) + CrossFieldIssues(Converted(v.props));
      ValidateAgrees(v);
      if issues == [] then Success(Converted(v.props)) else Failure(issues)
  }

  /** An input that is not an object, or one of whose fields aborts, is refused by the object schema. */
  lemma AbortsRefused(v: Value)
    requires !v.Obj? || Aborts(v.props)
    ensures ParseFields(v).Failure?
  {
    if v.Obj? {
      if IdentityAborts(v.props) {
        IdentityAbortsRefused(v.props);
      } else {
        AmountsAbortsRefused(v.props);
      }
    }
  }

  /** An aborting identifying field fails its own check. */
  lemma IdentityAbortsRefused(props: seq<Property>)
    requires IdentityAborts(props)
    ensures !IdentityAccepted(props)
  {
  }

  /** An aborting remaining field fails its own check. */
  lemma AmountsAbortsRefused(props: seq<Property>)
    requires AmountsAborts(props)
    ensures !AmountsAccepted(props)
  {
  }

  /** Without an aborting field, the object schema's verdict is read off its field issues. */
  lemma ValidateAgrees(v: Value)
    requires v.Obj? && !Aborts(v.props)
    ensures FieldIssues(v.props) == [] ==> ParseFields(v) == Success(Converted(v.props))
    ensures FieldIssues(v.props) != [] ==> ParseFields(v) == Failure(FieldIssues(v.props))
  {
    if FieldIssues(v.props) == [] {
      ConvertedAgrees(v.props);
    }
  }

  // ---------------------------------------------------------------------------
  // Alias preprocessing
  // ---------------------------------------------------------------------------

  /**
   * The lower-case alias of each field other than the date, and the field
   * it stands for, in the order the preprocessing copies them.
   */
  const Aliases: seq<(string, string)> := [
    ("ptoVta", "PtoVta"), ("tipoCmp", "CbteTipo"), ("nroCmp", "CbteNro"),
    ("importe", "ImpTotal"), ("moneda", "MonId"), ("ctz", "MonCotiz"),
    ("tipoDocRec", "DocTipo"), ("nroDocRec", "DocNro"), ("tipoCodAut", "TipoCodAut"),
    ("codAut", "CodAut"), ("ver", "Ver"), ("cuit", "Cuit")]

  /** The fields an alias can fill. */
  predicate IsCanonical(k: string)
  {
    k == "CbteFch" || k == "PtoVta" || k == "CbteTipo" || k == "CbteNro" || k == "ImpTotal"
    || k == "MonId" || k == "MonCotiz" || k == "DocTipo" || k == "DocNro" || k == "TipoCodAut"
    || k == "CodAut" || k == "Ver" || k == "Cuit"
  }

  /** Each entry of the table fills a different field, and none fills the date. */
  lemma AliasTargetsDistinct()
    ensures forall i :: 0 <= i < |Aliases| ==> IsCanonical(Aliases[i].1) && Aliases[i].1 != "CbteFch"
    ensures forall i, j :: 0 <= i < j < |Aliases| ==> Aliases[i].1 != Aliases[j].1
  {
  }

  /** `{ ...o }`: the own properties of an object, or an array's elements under their indices. */
  function OwnProperties(v: Value): seq<Property>
  {
    match v
    case Obj(props, _) => props
    case Arr(items) => seq(|items|, i requires 0 <= i < |items| => Property(Text.NatToString(i), items[i]))
    case _ => []
  }

  /** The field's own value in `own`, or the alias's when the field is undefined there. */
  function Adopted(o: Value, own: seq<Property>, alias: string, canon: string): Value
  {
    if Lookup(own, canon).Undefined? then Get(o, alias) else Lookup(own, canon)
  }

  /** The date field: its own value, or the truthy `fecha` with its dashes removed. */
  function AdoptedDate(o: Value, own: seq<Property>): Value
  {
    var fecha := Get(o, "fecha");
    if Lookup(own, "CbteFch").Undefined? && Truthy(fecha) then Str(Text.ReplaceAll(ToJsString(fecha), "-", ""))
    else Lookup(own, "CbteFch")
  }

  /** What the preprocessing leaves: the fields filled from their aliases, nothing else changed. */
  ghost predicate Preprocessed(input: Value, output: Value)
  {
    && (!(Truthy(input) && IsObjectType(input)) ==> output == input)
    && (Truthy(input) && IsObjectType(input) ==>
      && output.Obj? && output.kind == Plain
      && Keys(OwnProperties(input)) <= Keys(output.props)
      && Lookup(output.props, "CbteFch") == AdoptedDate(input, OwnProperties(input))
      && (forall i :: 0 <= i < |Aliases| ==>
            Lookup(output.props, Aliases[i].1) == Adopted(input, OwnProperties(input), Aliases[i].0, Aliases[i].1))
      && (forall k :: !IsCanonical(k) ==> Lookup(output.props, k) == Lookup(OwnProperties(input), k)))
  }

  /**
   * `aliasPreprocess`: a falsy or non-object input is returned as it is; an
   * object (or array) is copied, the date is filled from a truthy `fecha`
   * with its dashes removed, and each other field that is undefined takes
   * its alias's value when the alias is defined. Every other property keeps
   * its value and no key is lost. The twelve copies, written out one after
   * the other in the source, are taken from `Aliases` in the same order.
   */
  method AliasPreprocess(input: Value) returns (output: Value)
    ensures !(Truthy(input) && IsObjectType(input)) ==> output == input
    ensures Truthy(input) && IsObjectType(input) ==>
      && output.Obj? && output.kind == Plain
      && Keys(OwnProperties(input)) <= Keys(output.props)
      && Lookup(output.props, "CbteFch") == AdoptedDate(input, OwnProperties(input))
      && (forall i :: 0 <= i < |Aliases| ==>
            Lookup(output.props, Aliases[i].1) == Adopted(input, OwnProperties(input), Aliases[i].0, Aliases[i].1))
      && (forall k :: !IsCanonical(k) ==> Lookup(output.props, k) == Lookup(OwnProperties(input), k))
  {
    if !Truthy(input) || !IsObjectType(input) {
      return input;
    }
    var own := OwnProperties(input);
    var dated := FillDate(input, own);
    AliasTargetsDistinct();
    var out := CopyAliases(input, own, dated);
    output := Record(out);
  }

  /** The twelve copies, in the order of `Aliases`, applied to the properties `start` that already hold the date. */
  method CopyAliases(input: Value, own: seq<Property>, start: seq<Property>) returns (out: seq<Property>)
    requires Keys(own) <= Keys(start)
    requires forall j :: 0 <= j < |Aliases| ==> Lookup(start, Aliases[j].1) == Lookup(own, Aliases[j].1)
    requires forall k :: !IsCanonical(k) ==> Lookup(start, k) == Lookup(own, k)
    ensures Keys(own) <= Keys(out)
    ensures Lookup(out, "CbteFch") == Lookup(start, "CbteFch")
    ensures forall j :: 0 <= j < |Aliases| ==> Lookup(out, Aliases[j].1) == Adopted(input, own, Aliases[j].0, Aliases[j].1)
    ensures forall k :: !IsCanonical(k) ==> Lookup(out, k) == Lookup(own, k)
  {
    AliasTargetsDistinct();
    out := start;
    var i := 0;
    while i < |Aliases|
      invariant 0 <= i <= |Aliases|
      invariant Keys(own) <= Keys(out)
      invariant Lookup(out, "CbteFch") == Lookup(start, "CbteFch")
      invariant forall j :: 0 <= j < i ==> Lookup(out, Aliases[j].1) == Adopted(input, own, Aliases[j].0, Aliases[j].1)
      invariant forall j :: i <= j < |Aliases| ==> Lookup(out, Aliases[j].1) == Lookup(own, Aliases[j].1)
      invariant forall k :: !IsCanonical(k) ==> Lookup(out, k) == Lookup(own, k)
    {
      var (alias, canon) := Aliases[i];
      ghost var prev := out;
      out := CopyAlias(input, out, alias, canon);
      AdoptedSoFar(input, own, prev, out, i);
      OthersUntouched(own, start, prev, out, i);
      i := i + 1;
    }
  }

  /** After the copy for entry `i`, the entries up to `i` hold their adopted values. */
  lemma AdoptedSoFar(o: Value, own: seq<Property>, prev: seq<Property>, next: seq<Property>, i: nat)
    requires i < |Aliases|
    requires forall j :: 0 <= j < i ==> Lookup(prev, Aliases[j].1) == Adopted(o, own, Aliases[j].0, Aliases[j].1)
    requires Lookup(prev, Aliases[i].1) == Lookup(own, Aliases[i].1)
    requires Lookup(next, Aliases[i].1) ==
      if Lookup(prev, Aliases[i].1).Undefined? then Get(o, Aliases[i].0) else Lookup(prev, Aliases[i].1)
    requires forall k :: k != Aliases[i].1 ==> Lookup(next, k) == Lookup(prev, k)
    ensures forall j :: 0 <= j <= i ==> Lookup(next, Aliases[j].1) == Adopted(o, own, Aliases[j].0, Aliases[j].1)
  {
    AliasTargetsDistinct();
    forall j | 0 <= j <= i
      ensures Lookup(next, Aliases[j].1) == Adopted(o, own, Aliases[j].0, Aliases[j].1)
    {
      if j < i {
        assert Aliases[j].1 != Aliases[i].1;
      }
    }
  }

  /** The copy for entry `i` leaves the later entries, the date and every other property as they were. */
  lemma OthersUntouched(own: seq<Property>, start: seq<Property>, prev: seq<Property>, next: seq<Property>, i: nat)
    requires i < |Aliases|
    requires Lookup(prev, "CbteFch") == Lookup(start, "CbteFch")
    requires forall j :: i <= j < |Aliases| ==> Lookup(prev, Aliases[j].1) == Lookup(own, Aliases[j].1)
    requires forall k :: !IsCanonical(k) ==> Lookup(prev, k) == Lookup(own, k)
    requires forall k :: k != Aliases[i].1 ==> Lookup(next, k) == Lookup(prev, k)
    ensures Lookup(next, "CbteFch") == Lookup(start, "CbteFch")
    ensures forall j :: i + 1 <= j < |Aliases| ==> Lookup(next, Aliases[j].1) == Lookup(own, Aliases[j].1)
    ensures forall k :: !IsCanonical(k) ==> Lookup(next, k) == Lookup(own, k)
  {
    AliasTargetsDistinct();
  }

  /** The date step: an undefined `CbteFch` takes the text of a truthy `fecha` without its dashes. */
  method FillDate(o: Value, own: seq<Property>) returns (out: seq<Property>)
    ensures Lookup(out, "CbteFch") == AdoptedDate(o, own)
    ensures forall k :: k != "CbteFch" ==> Lookup(out, k) == Lookup(own, k)
    ensures Keys(own) <= Keys(out)
  {
    out := own;
    if Truthy(Get(o, "fecha")) && Lookup(own, "CbteFch").Undefined? {
      out := Put(own, "CbteFch", Str(Text.ReplaceAll(ToJsString(Get(o, "fecha")), "-", "")));
    }
  }

  /** One copy: an undefined `canon` takes the value of a defined `alias`. */
  method CopyAlias(o: Value, out: seq<Property>, alias: string, canon: string) returns (next: seq<Property>)
    ensures Lookup(next, canon) == if Lookup(out, canon).Undefined? then Get(o, alias) else Lookup(out, canon)
    ensures forall k :: k != canon ==> Lookup(next, k) == Lookup(out, k)
    ensures Keys(out) <= Keys(next)
  {
    next := out;
    if !Get(o, alias).Undefined? && Lookup(out, canon).Undefined? {
      next := Put(out, canon, Get(o, alias));
    }
  }
}
