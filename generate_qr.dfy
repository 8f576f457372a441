/**
 * The QR generator: the preprocessed and validated arguments become the
 * payload of the AFIP QR specification, which is written as JSON, turned
 * into UTF-8 bytes, Base64-encoded, percent-encoded and appended to the
 * official URL. A validation failure becomes an error response listing
 * the issues.
 */
module GenerateQR {
  import opened Wrappers
  import opened JsValue
  import opened Validation
  import Text
  import Json
  import Utf8
  import Base64
  import Uri
  import QrSchema
  import opened GenerateQRSchema

  const QrPrefix: string := "https://www.arca.gob.ar/fe/qr/?p="
  const SuccessMessage: string := "QR generado correctamente"
  const InvalidParameters: string := "Parámetros inválidos"
  const GenericError: string := "Error generando QR"
  const Hint: string := "Verifique que los campos coincidan con las especificaciones AFIP. Principales: Ver, CbteFch (yyyyMMdd), Cuit (11 dígitos), PtoVta, CbteTipo, CbteNro, ImpTotal, MonId (3 letras), MonCotiz (>0), TipoCodAut (E/A), CodAut (14 dígitos). Opcionales: DocTipo/DocNro. También se aceptan alias: fecha, ptoVta, tipoCmp, nroCmp, importe, moneda, ctz, tipoDocRec, nroDocRec, tipoCodAut, codAut, cuit, ver."

  /** What the error response carries as `details`. */
  datatype Details = IssueList(issues: seq<Issue>) | Raw(value: Value)

  /** What `execute` throws inside its `try`: a Zod error with its issues, or any other value. */
  datatype Thrown = ZodError(issues: seq<Issue>) | Other(err: Value)

  /** The object the response's text holds. */
  datatype QrResponse =
    | Generated(message: string, qrText: string, payload: Value)
    | Refused(error: Value, details: Details, hint: string)
  {
    /** The response's `isError` flag. */
    predicate IsError() { Refused? }
  }

  /** The date as `YYYY-MM-DD`, from the slices [0, 4), [4, 6) and [6, 8) of `YYYYMMDD`. */
  function FormatDate(yyyymmdd: string): string
  {
    Text.Slice(yyyymmdd, 0, 4) + "-" + Text.Slice(yyyymmdd, 4, 6) + "-" + Text.Slice(yyyymmdd, 6, 8)
  }

  /** An eight-digit date is written as an ISO date that normalises back to it. */
  lemma FormatDateRoundTrip(s: string)
    requires Text.IsDigits(s, 8)
    ensures IsIsoDate(FormatDate(s))
    ensures NormalizeCbteFch(Str(FormatDate(s))) == s
  {
    var t := FormatDate(s);
    FormatDateShape(s);
    assert Text.IsDigit(t[0]) && Text.IsDigit(t[9]);
    assert !Text.IsJsWhitespace(t[0]) && !Text.IsJsWhitespace(t[9]);
    Text.TrimNoop(t);
    assert !Text.IsDigits(t, 8);
  }

  lemma FormatDateShape(s: string)
    requires Text.IsDigits(s, 8)
    ensures var t := FormatDate(s);
      && IsIsoDate(t) && t[..4] + t[5..7] + t[8..10] == s
      && Text.IsDigit(t[0]) && Text.IsDigit(t[9])
  {
    var t := FormatDate(s);
    assert t == s[..4] + "-" + s[4..6] + "-" + s[6..8];
    assert t[..4] == s[..4] && t[5..7] == s[4..6] && t[8..10] == s[6..8] && t[8..] == s[6..8];
    assert s[..4] + s[4..6] + s[6..8] == s;
  }

  /** The receiver's document, written only when both its type and its number are known. */
  function DocPair(f: QrFields): seq<Property>
  {
    if f.docTipo.Some? && f.docNro.Some? then
      [Property("tipoDocRec", Num(f.docTipo.value)), Property("nroDocRec", Num(f.docNro.value))]
    else []
  }

  /** The fields the payload always writes before the document pair. */
  function HeadProps(f: QrFields, fecha: string): seq<Property>
  {
    [ Property("ver", Num(f.ver)),
      Property("fecha", Str(fecha)),
      Property("cuit", Num(f.cuit)),
      Property("ptoVta", Num(f.ptoVta)),
      Property("tipoCmp", Num(f.cbteTipo)),
      Property("nroCmp", Num(f.cbteNro)),
      Property("importe", Num(f.impTotal)),
      Property("moneda", Str(f.monId)),
      Property("ctz", Num(f.monCotiz)) ]
  }

  /** The fields the payload always writes after the document pair. */
  function TailProps(f: QrFields, codAut: Value): seq<Property>
  {
    [Property("tipoCodAut", Str(f.tipoCodAut)), Property("codAut", codAut)]
  }

  /** The payload's properties in the order the object literal writes them, for a given date and code. */
  function PropsWith(f: QrFields, fecha: string, codAut: Value): seq<Property>
  {
    HeadProps(f, fecha) + DocPair(f) + TailProps(f, codAut)
  }

  /** The payload's properties. */
  function PayloadProps(f: QrFields): seq<Property>
  {
    PropsWith(f, FormatDate(f.cbteFch), Str(f.codAut))
  }

  /** The payload object. */
  function Payload(f: QrFields): Value
  {
    Record(PayloadProps(f))
  }

  /** Each field of the payload holds the validated field it is named after. */
  lemma PayloadFields(f: QrFields)
    ensures var p := PayloadProps(f);
      && Lookup(p, "ver") == Num(f.ver)
      && Lookup(p, "fecha") == Str(FormatDate(f.cbteFch))
      && Lookup(p, "cuit") == Num(f.cuit)
      && Lookup(p, "ptoVta") == Num(f.ptoVta)
      && Lookup(p, "tipoCmp") == Num(f.cbteTipo)
      && Lookup(p, "nroCmp") == Num(f.cbteNro)
      && Lookup(p, "importe") == Num(f.impTotal)
      && Lookup(p, "moneda") == Str(f.monId)
      && Lookup(p, "ctz") == Num(f.monCotiz)
      && Lookup(p, "tipoCodAut") == Str(f.tipoCodAut)
      && Lookup(p, "codAut") == Str(f.codAut)
    ensures var p := PayloadProps(f);
      && (f.docTipo.Some? && f.docNro.Some? ==>
            Lookup(p, "tipoDocRec") == Num(f.docTipo.value) && Lookup(p, "nroDocRec") == Num(f.docNro.value))
      && (!(f.docTipo.Some? && f.docNro.Some?) ==>
            Lookup(p, "tipoDocRec") == Undefined && Lookup(p, "nroDocRec") == Undefined)
  {
    HeadFields(f, FormatDate(f.cbteFch), Str(f.codAut));
    LaterFields(f, FormatDate(f.cbteFch), Str(f.codAut));
  }

  /** The fields before the document pair, found in the head. */
  lemma HeadFields(f: QrFields, fecha: string, codAut: Value)
    ensures var p := PropsWith(f, fecha, codAut);
      && Lookup(p, "ver") == Num(f.ver)
      && Lookup(p, "fecha") == Str(fecha)
      && Lookup(p, "cuit") == Num(f.cuit)
      && Lookup(p, "ptoVta") == Num(f.ptoVta)
      && Lookup(p, "tipoCmp") == Num(f.cbteTipo)
      && Lookup(p, "nroCmp") == Num(f.cbteNro)
      && Lookup(p, "importe") == Num(f.impTotal)
      && Lookup(p, "moneda") == Str(f.monId)
      && Lookup(p, "ctz") == Num(f.monCotiz)
  {
    var h, rest := HeadProps(f, fecha), DocPair(f) + TailProps(f, codAut);
    assert PropsWith(f, fecha, codAut) == h + rest;
    PayloadHead(f, fecha);
    PayloadHeadRest(f, fecha);
    LookupPrefix(h, rest, "ver");
    LookupPrefix(h, rest, "fecha");
    LookupPrefix(h, rest, "cuit");
    LookupPrefix(h, rest, "ptoVta");
    LookupPrefix(h, rest, "tipoCmp");
    LookupPrefix(h, rest, "nroCmp");
    LookupPrefix(h, rest, "importe");
    LookupPrefix(h, rest, "moneda");
    LookupPrefix(h, rest, "ctz");
  }

  /** The document pair and the last two fields, found after the head. */
  lemma LaterFields(f: QrFields, fecha: string, codAut: Value)
    ensures var p := PropsWith(f, fecha, codAut);
      && Lookup(p, "tipoCodAut") == Str(f.tipoCodAut)
      && Lookup(p, "codAut") == codAut
      && (f.docTipo.Some? && f.docNro.Some? ==>
            Lookup(p, "tipoDocRec") == Num(f.docTipo.value) && Lookup(p, "nroDocRec") == Num(f.docNro.value))
      && (!(f.docTipo.Some? && f.docNro.Some?) ==>
            Lookup(p, "tipoDocRec") == Undefined && Lookup(p, "nroDocRec") == Undefined)
  {
    var h, d, t := HeadProps(f, fecha), DocPair(f), TailProps(f, codAut);
    assert PropsWith(f, fecha, codAut) == h + (d + t);
    HeadLacksLaterKeys(f, fecha);
    LookupSuffix(h, d + t, "tipoDocRec");
    LookupSuffix(h, d + t, "nroDocRec");
    LookupSuffix(h, d + t, "tipoCodAut");
    LookupSuffix(h, d + t, "codAut");
    TailFields(f, codAut);
    DocFields(f, codAut);
  }

  /** After the head: the last two fields. */
  lemma TailFields(f: QrFields, codAut: Value)
    ensures Lookup(DocPair(f) + TailProps(f, codAut), "tipoCodAut") == Str(f.tipoCodAut)
    ensures Lookup(DocPair(f) + TailProps(f, codAut), "codAut") == codAut
  {
    PayloadTail(f, codAut);
    LookupSuffix(DocPair(f), TailProps(f, codAut), "tipoCodAut");
    LookupSuffix(DocPair(f), TailProps(f, codAut), "codAut");
  }

  /** After the head: the document pair, or nothing. */
  lemma DocFields(f: QrFields, codAut: Value)
    ensures var r := DocPair(f) + TailProps(f, codAut);
      && (f.docTipo.Some? && f.docNro.Some? ==>
            Lookup(r, "tipoDocRec") == Num(f.docTipo.value) && Lookup(r, "nroDocRec") == Num(f.docNro.value))
      && (!(f.docTipo.Some? && f.docNro.Some?) ==>
            Lookup(r, "tipoDocRec") == Undefined && Lookup(r, "nroDocRec") == Undefined)
  {
    var d, t := DocPair(f), TailProps(f, codAut);
    if d != [] {
      LookupAt(d, 0);
      LookupAt(d, 1);
      LookupPrefix(d, t, "tipoDocRec");
      LookupPrefix(d, t, "nroDocRec");
    } else {
      assert d + t == t;
      IndexOfAbsent(t, "tipoDocRec");
      IndexOfAbsent(t, "nroDocRec");
    }
  }

  lemma PayloadHead(f: QrFields, fecha: string)
    ensures var h := HeadProps(f, fecha);
      && Lookup(h, "ver") == Num(f.ver)
      && Lookup(h, "fecha") == Str(fecha)
      && Lookup(h, "cuit") == Num(f.cuit)
      && Lookup(h, "ptoVta") == Num(f.ptoVta)
      && Lookup(h, "tipoCmp") == Num(f.cbteTipo)
  {
    PayloadIssuer(f, fecha);
    PayloadSale(f, fecha);
  }

  /** Version, date and issuer in the payload's first fields. */
  lemma PayloadIssuer(f: QrFields, fecha: string)
    ensures var h := HeadProps(f, fecha);
      && Lookup(h, "ver") == Num(f.ver)
      && Lookup(h, "fecha") == Str(fecha)
      && Lookup(h, "cuit") == Num(f.cuit)
  {
    var h := HeadProps(f, fecha);
    LookupAt(h, 0);
    LookupAt(h, 1);
    LookupAt(h, 2);
  }

  /** Point of sale and voucher type in the payload's first fields. */
  lemma PayloadSale(f: QrFields, fecha: string)
    ensures var h := HeadProps(f, fecha);
      && Lookup(h, "ptoVta") == Num(f.ptoVta)
      && Lookup(h, "tipoCmp") == Num(f.cbteTipo)
  {
    var h := HeadProps(f, fecha);
    LookupAt(h, 3);
    LookupAt(h, 4);
  }

  lemma PayloadHeadRest(f: QrFields, fecha: string)
    ensures var h := HeadProps(f, fecha);
      && Lookup(h, "nroCmp") == Num(f.cbteNro)
      && Lookup(h, "importe") == Num(f.impTotal)
      && Lookup(h, "moneda") == Str(f.monId)
      && Lookup(h, "ctz") == Num(f.monCotiz)
  {
    var h := HeadProps(f, fecha);
    LookupAt(h, 5);
    LookupAt(h, 6);
    LookupAt(h, 7);
    LookupAt(h, 8);
  }

  lemma HeadLacksLaterKeys(f: QrFields, fecha: string)
    ensures var h := HeadProps(f, fecha);
      && IndexOf(h, "tipoDocRec").None? && IndexOf(h, "nroDocRec").None?
      && IndexOf(h, "tipoCodAut").None? && IndexOf(h, "codAut").None?
  {
    var h := HeadProps(f, fecha);
    IndexOfAbsent(h, "tipoDocRec");
    IndexOfAbsent(h, "nroDocRec");
    IndexOfAbsent(h, "tipoCodAut");
    IndexOfAbsent(h, "codAut");
  }

  lemma PayloadTail(f: QrFields, codAut: Value)
    ensures var t := TailProps(f, codAut);
      Lookup(t, "tipoCodAut") == Str(f.tipoCodAut) && Lookup(t, "codAut") == codAut
    ensures IndexOf(DocPair(f), "tipoCodAut").None? && IndexOf(DocPair(f), "codAut").None?
  {
    LookupAt(TailProps(f, codAut), 0);
    LookupAt(TailProps(f, codAut), 1);
    IndexOfAbsent(DocPair(f), "tipoCodAut");
    IndexOfAbsent(DocPair(f), "codAut");
  }

  /** The document pair appears in the payload exactly when both the type and the number were given. */
  lemma PayloadDocPairIff(f: QrFields)
    ensures "tipoDocRec" in Keys(PayloadProps(f)) <==> f.docTipo.Some? && f.docNro.Some?
    ensures "nroDocRec" in Keys(PayloadProps(f)) <==> f.docTipo.Some? && f.docNro.Some?
  {
    DocPairKeys(f, FormatDate(f.cbteFch), Str(f.codAut));
  }

  lemma DocPairKeys(f: QrFields, fecha: string, codAut: Value)
    ensures "tipoDocRec" in Keys(PropsWith(f, fecha, codAut)) <==> f.docTipo.Some? && f.docNro.Some?
    ensures "nroDocRec" in Keys(PropsWith(f, fecha, codAut)) <==> f.docTipo.Some? && f.docNro.Some?
  {
    var p := PropsWith(f, fecha, codAut);
    if f.docTipo.Some? && f.docNro.Some? {
      assert p[9].key == "tipoDocRec" && p[10].key == "nroDocRec";
    } else {
      assert forall i :: 0 <= i < |p| ==> p[i].key != "tipoDocRec" && p[i].key != "nroDocRec";
    }
  }

  /**
   * A payload built from valid fields meets the QR data schema once its
   * `codAut` is written as the number its text denotes, provided that
   * number has no leading zero and the document number, when written, is
   * positive and within the schema's bound. The payload itself writes
   * `codAut` as text, and the input schema accepts a document number of 0.
   */
  lemma PayloadConforms(f: QrFields)
    requires FieldsValid(f) && CrossRulesHold(f)
    requires f.codAut[0] != '0'
    requires f.docTipo.Some? && f.docNro.Some? ==> 1 <= f.docNro.value <= QrSchema.MaxNroDocRec
    ensures QrSchema.Conforms(Record(PropsWith(f, FormatDate(f.cbteFch), Num(Text.Value(f.codAut)))))
  {
    FormatDateRoundTrip(f.cbteFch);
    ConformsWith(f, FormatDate(f.cbteFch));
  }

  lemma ConformsWith(f: QrFields, fecha: string)
    requires FieldsValid(f) && CrossRulesHold(f) && IsIsoDate(fecha)
    requires f.codAut[0] != '0'
    requires f.docTipo.Some? && f.docNro.Some? ==> 1 <= f.docNro.value <= QrSchema.MaxNroDocRec
    ensures QrSchema.Conforms(Record(PropsWith(f, fecha, Num(Text.Value(f.codAut)))))
  {
    HeadConforms(f, fecha, Num(Text.Value(f.codAut)));
    CodAutInRange(f.codAut);
    LaterConforms(f, fecha, Num(Text.Value(f.codAut)));
  }

  lemma HeadConforms(f: QrFields, fecha: string, codAut: Value)
    requires FieldsValid(f) && IsIsoDate(fecha)
    ensures var p := PropsWith(f, fecha, codAut);
      && Lookup(p, "ver") == Num(1)
      && QrSchema.IsFecha(Lookup(p, "fecha"))
      && QrSchema.IntIn(Lookup(p, "cuit"), MinCuit, MaxCuit)
      && QrSchema.IntIn(Lookup(p, "ptoVta"), 1, MaxPtoVta)
      && QrSchema.IntIn(Lookup(p, "tipoCmp"), 1, MaxCbteTipo)
      && QrSchema.IntIn(Lookup(p, "nroCmp"), 1, MaxCbteNro)
      && QrSchema.NumberAtLeast(Lookup(p, "importe"), 0)
      && QrSchema.IsMoneda(Lookup(p, "moneda"))
      && QrSchema.NumberAtLeast(Lookup(p, "ctz"), 0)
  {
    HeadFields(f, fecha, codAut);
  }

  lemma LaterConforms(f: QrFields, fecha: string, codAut: Value)
    requires FieldsValid(f) && CrossRulesHold(f)
    requires f.docTipo.Some? && f.docNro.Some? ==> 1 <= f.docNro.value <= QrSchema.MaxNroDocRec
    requires QrSchema.IntIn(codAut, QrSchema.MinCodAut, QrSchema.MaxCodAut)
    ensures var p := PropsWith(f, fecha, codAut);
      && QrSchema.OptionalIntIn(Lookup(p, "tipoDocRec"), 1, QrSchema.MaxTipoDocRec)
      && QrSchema.OptionalIntIn(Lookup(p, "nroDocRec"), 1, QrSchema.MaxNroDocRec)
      && QrSchema.IsTipoCodAut(Lookup(p, "tipoCodAut"))
      && QrSchema.IntIn(Lookup(p, "codAut"), QrSchema.MinCodAut, QrSchema.MaxCodAut)
  {
    LaterFields(f, fecha, codAut);
  }

  /** Fourteen digits without a leading zero are a number in the range of authorisation codes. */
  lemma CodAutInRange(s: string)
    requires Text.IsDigits(s, 14) && s[0] != '0'
    ensures QrSchema.MinCodAut <= Text.Value(s) <= QrSchema.MaxCodAut
  {
    Text.ValueBound(s);
    assert Text.Pow10(14) == QrSchema.MaxCodAut + 1;
    var d := Text.DigitValue(s[0]);
    assert Text.Value(s) == d * Text.Pow10(13) + Text.Value(s[1..]);
    Text.MulMonotone(1, d, Text.Pow10(13));
    assert Text.Pow10(13) == QrSchema.MinCodAut;
  }

  /** The text of a JSON object, which `JSON.stringify` always writes. */
  function JsonOf(payload: Value): string
    requires payload.Obj?
  {
    Json.Stringify(payload).value
  }

  /** The QR text: the URL with the percent-encoded Base64 of the UTF-8 JSON in its `p` parameter. */
  function QrText(payload: Value): (r: string)
    requires payload.Obj?
    ensures Text.StartsWith(r, QrPrefix)
  {
    var r := QrPrefix + Uri.Encode(Base64.Encode(Utf8.Encode(JsonOf(payload))));
    assert r[..|QrPrefix|] == QrPrefix;
    r
  }

  /** What a reader of the QR code recovers: the JSON text, `None` when the text is not a QR text. */
  function ReadQrText(t: string): Option<string>
  {
    if !Text.StartsWith(t, QrPrefix) then None
    else match Uri.Decode(t[|QrPrefix|..])
      case None => None
      case Some(b64) =>
        match Base64.Decode(b64)
        case None => None
        case Some(bytes) => Utf8.Decode(bytes)
  }

  /** Reading the QR text gives back exactly the JSON of the payload. */
  lemma QrTextRoundTrip(payload: Value)
    requires payload.Obj?
    ensures ReadQrText(QrText(payload)) == Some(JsonOf(payload))
  {
    var json := JsonOf(payload);
    var bytes := Utf8.Encode(json);
    var b64 := Base64.Encode(bytes);
    var t := QrText(payload);
    assert t[|QrPrefix|..] == Uri.Encode(b64);
    Uri.DecodeEncode(b64);
    Base64.DecodeEncode(bytes);
    Utf8.DecodeEncode(json);
  }

  /** The handler of `execute`'s `catch`. */
  function CatchResponse(e: Thrown): (r: QrResponse)
    ensures r.IsError() && r.hint == Hint
    ensures e.ZodError? ==> r.error == Str(InvalidParameters) && r.details == IssueList(e.issues)
  {
    match e
    case ZodError(issues) => Refused(Str(InvalidParameters), IssueList(issues), Hint)
    case Other(err) =>
      if Truthy(Get(err, "issues")) then Refused(Str(InvalidParameters), Raw(Get(err, "issues")), Hint)
      else
        var message := Get(err, "message");
        Refused(if Truthy(message) then message else Str(GenericError), Raw(err), Hint)
  }

  /** The response to arguments the schema checked. */
  function Respond(checked: Checked<QrFields>): (r: QrResponse)
  {
    match checked
    case Failure(issues) => CatchResponse(ZodError(issues))
    case Success(f) =>
      var payload := Payload(f);
      Generated(SuccessMessage, QrText(payload), payload)
  }

  /** A response is an error exactly when validation failed, and then it lists the issues. */
  lemma RespondErrorIff(checked: Checked<QrFields>)
    ensures Respond(checked).IsError() <==> checked.Failure?
    ensures checked.Failure? ==>
      Respond(checked).error == Str(InvalidParameters) && Respond(checked).details == IssueList(checked.error)
  {
  }

  /**
   * A successful response carries the payload of the validated fields and
   * a QR text that reads back as that payload's JSON; the payload holds
   * the date as an ISO date that normalises back to `CbteFch`.
   */
  lemma RespondGenerated(checked: Checked<QrFields>)
    requires checked.Success?
    ensures var r := Respond(checked);
      && r.Generated? && r.message == SuccessMessage
      && r.payload == Payload(checked.value)
      && ReadQrText(r.qrText) == Some(JsonOf(r.payload))
      && Lookup(r.payload.props, "fecha") == Str(FormatDate(checked.value.cbteFch))
  {
    var f := checked.value;
    QrTextRoundTrip(Payload(f));
    PayloadFields(f);
  }

  /**
   * `execute`: the arguments are preprocessed and validated, then answered.
   * Whether rendering the QR image fails has no effect on the response.
   */
  method Execute(params: Value, renderFails: bool) returns (r: QrResponse, ghost normalized: Value)
    ensures Preprocessed(params, normalized)
    ensures r == Respond(Validate(normalized))
    ensures !(Truthy(params) && IsObjectType(params)) ==> r == Respond(Validate(params))
    ensures r.Generated? ==> ReadQrText(r.qrText) == Some(JsonOf(r.payload))
  {
    var pre := AliasPreprocess(params);
    normalized := pre;
    var checked := Validate(pre);
    r := Respond(checked);
    if checked.Success? {
      RespondGenerated(checked);
    }
  }
}
