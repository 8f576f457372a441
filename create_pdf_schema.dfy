/**
 * The input schema of the PDF generator. Identifiers may arrive as
 * numbers or strings and are kept as text; dates are `YYYYMMDD`; the
 * recipient's document number is either empty or an 11-digit CUIT/CUIL;
 * the currency, its rate, the payment condition, the authorisation type
 * and the item list have defaults. The fields are checked in the order
 * the schema declares them, in seven groups (issuer, voucher, recipient,
 * payment, totals, authorisation, items).
 */
module CreatePdfSchema {
  import opened Wrappers
  import opened JsValue
  import opened Validation
  import Text
  import PdfHelpers
  import GenerateQRSchema

  const Letters: seq<string> := ["A", "B", "C", "M"]
  const PaymentConditions: seq<string> := [
    "Contado", "Efectivo", "Transferencia", "Depósito", "Tarjeta de Débito",
    "Tarjeta de Crédito", "Mercado Pago", "Billetera virtual", "Cheque",
    "Cuenta Corriente", "A crédito", "Contraentrega", "QR interoperable", "Otros"]
  const AuthorizationTypes: seq<string> := ["E", "A"]
  const DocNroMessage :=
    "DocNro debe ser CUIL/CUIT de 11 dígitos o bien vacío explícito si no corresponde declarar receptor."

  // ---------------------------------------------------------------------------
  // Fields
  // ---------------------------------------------------------------------------

  /** A number given for an identifier reads back as the same number. */
  lemma IdAsStringNumber(path: string, n: nat)
    ensures IdAsString(path, Num(n)).Success?
    ensures Text.AllDigits(IdAsString(path, Num(n)).value)
    ensures Text.Value(IdAsString(path, Num(n)).value) == n
  {
    Text.NatToStringValue(n);
  }

  /** What `DocNro` accepts once trimmed. */
  predicate IsDocNro(s: string) { s == "" || Text.IsDigits(s, 11) }

  /**
   * `DocNro`: absent becomes the empty text, a string or number is
   * trimmed, and the result must be empty or 11 digits. A `null` is
   * refused by the union before the transform is reached.
   */
  function DocNroField(v: Value): (r: Checked<string>)
    ensures r.Success? <==> v.Undefined? || ((v.Str? || v.Num?) && IsDocNro(Text.Trim(ToJsString(v))))
    ensures r.Success? ==> IsDocNro(r.value)
    ensures v.Undefined? ==> r == Success("")
    ensures r.Success? && !v.Undefined? ==> r.value == Text.Trim(ToJsString(v))
    ensures r.Failure? ==> r.error != []
  {
    if v.Undefined? then Success("")
    else match IdAsString("DocNro", v)
      case Failure(e) => Failure(e)
      case Success(s) =>
        var t := Text.Trim(s);
        if IsDocNro(t) then Success(t) else Failure([Issue("DocNro", Custom(DocNroMessage))])
  }

  /** Eleven digits with blanks around them are accepted as the digits alone. */
  lemma DocNroTrimsBlanks(d: string)
    requires Text.IsDigits(d, 11)
    ensures DocNroField(Str(" " + d + " ")) == Success(d)
  {
    Text.TrimSpaced(d);
  }

  /** A number given for `DocNro` is accepted iff it is written with 11 digits, as a CUIT is. */
  lemma DocNroNumber(n: int)
    ensures DocNroField(Num(n)).Success? <==> GenerateQRSchema.MinCuit <= n <= GenerateQRSchema.MaxCuit
  {
    NumberTextUntrimmed(n);
    DocNroUntrimmed(Num(n));
    GenerateQRSchema.CuitDigits(n);
  }

  /** `String(n)` has no blanks to trim. */
  lemma NumberTextUntrimmed(n: int)
    ensures Text.Trim(NumberToString(n)) == NumberToString(n)
  {
    var s := NumberToString(n);
    if n < 0 {
      assert s[0] == '-';
    }
    Text.TrimNoop(s);
  }

  /** A number written without surrounding blanks is checked as written. */
  lemma DocNroUntrimmed(v: Value)
    requires v.Num? && Text.Trim(ToJsString(v)) == ToJsString(v)
    ensures DocNroField(v).Success? <==> Text.IsDigits(ToJsString(v), 11)
  {
  }

  /** `z.string().min(1)`. */
  function NonEmptyText(path: string, v: Value): (r: Checked<string>)
    ensures r.Success? <==> v.Str? && v.s != []
    ensures r.Success? ==> r.value == v.s
    ensures r.Failure? ==> r.error != []
  {
    MinLength(path, StringField(path, v), 1)
  }

  /** `z.number().int().min(1)`: identifiers and counters (numbers are whole here). */
  function PositiveField(path: string, v: Value): (r: Checked<int>)
    ensures r.Success? <==> v.Num? && v.n >= 1
    ensures r.Success? ==> r.value == v.n
    ensures r.Failure? ==> r.error != []
  {
    AtLeast(path, NumberField(path, v), 1)
  }

  /** `z.number().min(0)`, after the default `d` when one is given. */
  function AmountField(path: string, v: Value): (r: Checked<int>)
    ensures r.Success? <==> v.Num? && v.n >= 0
    ensures r.Success? ==> r.value == v.n
    ensures r.Failure? ==> r.error != []
  {
    AtLeast(path, NumberField(path, v), 0)
  }

  /** `z.string().regex(/^\d{8}$/).optional()`. */
  function OptionalDate(path: string, v: Value): (r: Checked<Option<string>>)
    ensures r.Success? <==> v.Undefined? || (v.Str? && Text.IsDigits(v.s, 8))
    ensures r.Success? ==> (r.value.Some? <==> !v.Undefined?)
    ensures r.Success? && r.value.Some? ==> r.value.value == v.s && Text.IsDigits(r.value.value, 8)
    ensures r.Failure? ==> r.error != []
  {
    OptionalField(v, DateField(path, v))
  }

  /**
   * `FECHA_INICIO_ACTIVIDADES` as the schema declares it: a string of at
   * least 4 characters, defaulting to the empty text. Zod parses a
   * default like any other value, so the default itself is too short.
   */
  function StartOfActivitiesAsWritten(v: Value): (r: Checked<string>)
    ensures r.Success? <==> v.Str? && |v.s| >= 4
    ensures r.Success? ==> r.value == v.s
  {
    MinLength("FECHA_INICIO_ACTIVIDADES", StringField("FECHA_INICIO_ACTIVIDADES", Default(v, Str(""))), 4)
  }

  /** Leaving the start of activities out, as its empty default invites, is refused. */
  lemma StartOfActivitiesDefaultRefused()
    ensures StartOfActivitiesAsWritten(Undefined) == Failure([Issue("FECHA_INICIO_ACTIVIDADES", TooSmall(4))])
  {
  }

  /** `FECHA_INICIO_ACTIVIDADES` as intended: absent is the empty text, a given value has at least 4 characters. */
  function StartOfActivities(v: Value): (r: Checked<string>)
    ensures r.Success? <==> v.Undefined? || (v.Str? && |v.s| >= 4)
    ensures v.Undefined? ==> r == Success("")
    ensures r.Success? && !v.Undefined? ==> r.value == v.s
    ensures r.Failure? ==> r.error != []
  {
    if v.Undefined? then Success("")
    else MinLength("FECHA_INICIO_ACTIVIDADES", StringField("FECHA_INICIO_ACTIVIDADES", v), 4)
  }

  /** The two readings differ only on the absent value. */
  lemma StartOfActivitiesAgrees(v: Value)
    requires !v.Undefined?
    ensures StartOfActivities(v) == StartOfActivitiesAsWritten(v)
  {
  }

  // ---------------------------------------------------------------------------
  // Items
  // ---------------------------------------------------------------------------

  /** The path of field `f` of item `i`. */
  function ItemPath(i: nat, f: string): string
  {
    "INVOICE_ITEMS." + Text.NatToString(i) + "." + f
  }

  /** What an item's fields must hold. */
  predicate ItemAccepted(v: Value)
  {
    && v.Obj?
    && Lookup(v.props, "descripcion").Str? && Lookup(v.props, "descripcion").s != []
    && NonNegativeOr(Lookup(v.props, "cantidad"))
    && NonNegativeOr(Lookup(v.props, "precioUnitario"))
    && Lookup(v.props, "importe").Num? && Lookup(v.props, "importe").n >= 0
  }

  /** Absent, or a number that is not negative. */
  predicate NonNegativeOr(v: Value) { v.Undefined? || (v.Num? && v.n >= 0) }

  /** One item: a description, a quantity (default 1), a unit price (default 0) and an amount. */
  function ItemField(i: nat, v: Value): (r: Checked<PdfHelpers.Item>)
    ensures r.Success? <==> ItemAccepted(v)
    ensures r.Success? ==>
      && r.value.descripcion == Lookup(v.props, "descripcion").s
      && r.value.cantidad == (if Lookup(v.props, "cantidad").Undefined? then 1 else Lookup(v.props, "cantidad").n)
      && r.value.precioUnitario == (if Lookup(v.props, "precioUnitario").Undefined? then 0 else Lookup(v.props, "precioUnitario").n)
      && r.value.importe == Lookup(v.props, "importe").n
    ensures r.Failure? ==> r.error != []
  {
    if !v.Obj? then Failure([Issue("INVOICE_ITEMS." + Text.NatToString(i), InvalidType("object"))])
    else
      var d := NonEmptyText(ItemPath(i, "descripcion"), Lookup(v.props, "descripcion"));
      var c := AmountField(ItemPath(i, "cantidad"), Default(Lookup(v.props, "cantidad"), Num(1)));
      var p := AmountField(ItemPath(i, "precioUnitario"), Default(Lookup(v.props, "precioUnitario"), Num(0)));
      var a := AmountField(ItemPath(i, "importe"), Lookup(v.props, "importe"));
      if d.Success? && c.Success? && p.Success? && a.Success? then
        Success(PdfHelpers.Item(d.value, c.value, p.value, a.value))
      else
        assert IssuesOf(d) != [] || IssuesOf(c) != [] || IssuesOf(p) != [] || IssuesOf(a) != [];
        Failure(IssuesOf(d) + IssuesOf(c) + IssuesOf(p) + IssuesOf(a))
  }

  /** The items from position `i` on, each checked by `ItemField`. */
  function ItemsFrom(xs: seq<Value>, i: nat): (r: Checked<seq<PdfHelpers.Item>>)
    requires i <= |xs|
    ensures r.Success? ==> |r.value| == |xs| - i
    ensures r.Failure? ==> r.error != []
  {
    EachFrom(xs, i, ItemField)
  }

  /** The check of the elements from `i` on succeeds exactly when every one of them is accepted. */
  lemma ItemsFromAccepted(xs: seq<Value>, i: nat)
    requires i <= |xs|
    ensures ItemsFrom(xs, i).Success? <==> forall j :: i <= j < |xs| ==> ItemAccepted(xs[j])
  {
    EachFromSucceeds(xs, i, ItemField);
    forall j | i <= j < |xs|
      ensures ItemField(j, xs[j]).Success? <==> ItemAccepted(xs[j])
    {
    }
  }

  /** A successful check parses the element at `j` into the item `ItemField` gives for it, in order. */
  lemma ItemsFromParsed(xs: seq<Value>, i: nat)
    requires i <= |xs| && ItemsFrom(xs, i).Success?
    ensures forall j :: i <= j < |xs| ==> Success(ItemsFrom(xs, i).value[j - i]) == ItemField(j, xs[j])
  {
    EachFromValues(xs, i, ItemField);
  }

  /** `INVOICE_ITEMS`: an array of items, the empty list when absent. */
  function ItemsField(v: Value): (r: Checked<seq<PdfHelpers.Item>>)
    ensures r.Success? <==> v.Undefined? || (v.Arr? && forall j :: 0 <= j < |v.items| ==> ItemAccepted(v.items[j]))
    ensures v.Undefined? ==> r == Success([])
    ensures r.Success? && v.Arr? ==> |r.value| == |v.items|
    ensures r.Failure? ==> r.error != []
  {
    if v.Undefined? then Success([])
    else match v
      case Arr(xs) => ItemsFromAccepted(xs, 0); ItemsFrom(xs, 0)
      case _ => Failure([Issue("INVOICE_ITEMS", InvalidType("array"))])
  }

  // ---------------------------------------------------------------------------
  // Groups
  // ---------------------------------------------------------------------------

  datatype Issuer = Issuer(
    cbteTipo: int, cbteLetra: string, nombre: string, cuit: string, direccion: string,
    condicionIva: string, ingresosBrutos: string, inicioActividades: string)

  datatype Voucher = Voucher(ptoVta: int, cbteNro: int, cbteFch: string, monId: string, monCotiz: int)

  datatype Recipient = Recipient(docNro: string, nombre: string, condicionIva: string, direccion: Option<string>)

  datatype Payment = Payment(
    condicion: string, fchServDesde: Option<string>, fchServHasta: Option<string>, fchVtoPago: Option<string>)

  datatype Totals = Totals(subtotal: int, otrosTributos: int, total: int)

  datatype Authorization = Authorization(cae: string, vencimiento: string, tipoCodAut: string)

  datatype Input = Input(
    issuer: Issuer, voucher: Voucher, recipient: Recipient, payment: Payment,
    totals: Totals, authorization: Authorization, items: seq<PdfHelpers.Item>)

  /** The issuer's fields. */
  function IssuerFields(o: seq<Property>): (r: Checked<Issuer>)
    ensures r.Success? <==>
      && PositiveField("CbteTipo", Lookup(o, "CbteTipo")).Success?
      && EnumField("CbteLetra", Lookup(o, "CbteLetra"), Letters).Success?
      && NonEmptyText("NOMBRE_EMISOR", Lookup(o, "NOMBRE_EMISOR")).Success?
      && IdAsString("CUIT_EMISOR", Lookup(o, "CUIT_EMISOR")).Success?
      && NonEmptyText("DIRECCION_EMISOR", Lookup(o, "DIRECCION_EMISOR")).Success?
      && NonEmptyText("CondicionIVAEmisor", Lookup(o, "CondicionIVAEmisor")).Success?
      && StringField("INGRESOS_BRUTOS", Default(Lookup(o, "INGRESOS_BRUTOS"), Str(""))).Success?
      && StartOfActivities(Lookup(o, "FECHA_INICIO_ACTIVIDADES")).Success?
    ensures r.Success? ==>
      && r.value.cbteTipo >= 1
      && r.value.cbteLetra in Letters
      && r.value.nombre != [] && r.value.direccion != [] && r.value.condicionIva != []
      && r.value.cuit == ToJsString(Lookup(o, "CUIT_EMISOR"))
      && r.value.ingresosBrutos == (if Lookup(o, "INGRESOS_BRUTOS").Undefined? then "" else Lookup(o, "INGRESOS_BRUTOS").s)
      && (r.value.inicioActividades == "" || |r.value.inicioActividades| >= 4)
    ensures r.Failure? ==> r.error != []
  {
    var tipo := PositiveField("CbteTipo", Lookup(o, "CbteTipo"));
    var letra := EnumField("CbteLetra", Lookup(o, "CbteLetra"), Letters);
    var nombre := NonEmptyText("NOMBRE_EMISOR", Lookup(o, "NOMBRE_EMISOR"));
    var cuit := IdAsString("CUIT_EMISOR", Lookup(o, "CUIT_EMISOR"));
    var dir := NonEmptyText("DIRECCION_EMISOR", Lookup(o, "DIRECCION_EMISOR"));
    var iva := NonEmptyText("CondicionIVAEmisor", Lookup(o, "CondicionIVAEmisor"));
    var iibb := StringField("INGRESOS_BRUTOS", Default(Lookup(o, "INGRESOS_BRUTOS"), Str("")));
    var inicio := StartOfActivities(Lookup(o, "FECHA_INICIO_ACTIVIDADES"));
    if tipo.Success? && letra.Success? && nombre.Success? && cuit.Success? && dir.Success?
       && iva.Success? && iibb.Success? && inicio.Success?
    then Success(Issuer(tipo.value, letra.value, nombre.value, cuit.value, dir.value, iva.value, iibb.value, inicio.value))
    else
      assert IssuesOf(tipo) != [] || IssuesOf(letra) != [] || IssuesOf(nombre) != [] || IssuesOf(cuit) != []
        || IssuesOf(dir) != [] || IssuesOf(iva) != [] || IssuesOf(iibb) != [] || IssuesOf(inicio) != [];
      Failure(IssuesOf(tipo) + IssuesOf(letra) + IssuesOf(nombre) + IssuesOf(cuit) + IssuesOf(dir)
        + IssuesOf(iva) + IssuesOf(iibb) + IssuesOf(inicio))
  }

  /** The voucher's identifiers, date and currency. */
  function VoucherFields(o: seq<Property>): (r: Checked<Voucher>)
    ensures r.Success? <==>
      && PositiveField("PtoVta", Lookup(o, "PtoVta")).Success?
      && PositiveField("CbteNro", Lookup(o, "CbteNro")).Success?
      && DateField("CbteFch", Lookup(o, "CbteFch")).Success?
      && MinLength("MonId", StringField("MonId", Default(Lookup(o, "MonId"), Str("PES"))), 3).Success?
      && AmountField("MonCotiz", Default(Lookup(o, "MonCotiz"), Num(1))).Success?
    ensures r.Success? ==>
      && r.value.ptoVta == Lookup(o, "PtoVta").n >= 1
      && r.value.cbteNro == Lookup(o, "CbteNro").n >= 1
      && r.value.cbteFch == Lookup(o, "CbteFch").s && Text.IsDigits(r.value.cbteFch, 8)
      && r.value.monId == (if Lookup(o, "MonId").Undefined? then "PES" else Lookup(o, "MonId").s)
      && |r.value.monId| >= 3
      && r.value.monCotiz == (if Lookup(o, "MonCotiz").Undefined? then 1 else Lookup(o, "MonCotiz").n)
      && r.value.monCotiz >= 0
    ensures r.Failure? ==> r.error != []
  {
    var pto := PositiveField("PtoVta", Lookup(o, "PtoVta"));
    var nro := PositiveField("CbteNro", Lookup(o, "CbteNro"));
    var fch := DateField("CbteFch", Lookup(o, "CbteFch"));
    var mon := MinLength("MonId", StringField("MonId", Default(Lookup(o, "MonId"), Str("PES"))), 3);
    var ctz := AmountField("MonCotiz", Default(Lookup(o, "MonCotiz"), Num(1)));
    if pto.Success? && nro.Success? && fch.Success? && mon.Success? && ctz.Success?
    then Success(Voucher(pto.value, nro.value, fch.value, mon.value, ctz.value))
    else
      assert IssuesOf(pto) != [] || IssuesOf(nro) != [] || IssuesOf(fch) != [] || IssuesOf(mon) != [] || IssuesOf(ctz) != [];
      Failure(IssuesOf(pto) + IssuesOf(nro) + IssuesOf(fch) + IssuesOf(mon) + IssuesOf(ctz))
  }

  /** The recipient's document, name, tax condition and address. */
  function RecipientFields(o: seq<Property>): (r: Checked<Recipient>)
    ensures r.Success? <==>
      && DocNroField(Lookup(o, "DocNro")).Success?
      && NonEmptyText("NOMBRE_RECEPTOR", Lookup(o, "NOMBRE_RECEPTOR")).Success?
      && NonEmptyText("CondicionIVAReceptor", Lookup(o, "CondicionIVAReceptor")).Success?
      && (Lookup(o, "DIRECCION_RECEPTOR").Undefined? || Lookup(o, "DIRECCION_RECEPTOR").Str?)
    ensures r.Success? ==>
      && IsDocNro(r.value.docNro)
      && r.value.nombre != [] && r.value.condicionIva != []
      && (r.value.direccion.Some? <==> !Lookup(o, "DIRECCION_RECEPTOR").Undefined?)
    ensures r.Failure? ==> r.error != []
  {
    var doc := DocNroField(Lookup(o, "DocNro"));
    var nombre := NonEmptyText("NOMBRE_RECEPTOR", Lookup(o, "NOMBRE_RECEPTOR"));
    var iva := NonEmptyText("CondicionIVAReceptor", Lookup(o, "CondicionIVAReceptor"));
    var dir := OptionalField(Lookup(o, "DIRECCION_RECEPTOR"), StringField("DIRECCION_RECEPTOR", Lookup(o, "DIRECCION_RECEPTOR")));
    if doc.Success? && nombre.Success? && iva.Success? && dir.Success?
    then Success(Recipient(doc.value, nombre.value, iva.value, dir.value))
    else
      assert IssuesOf(doc) != [] || IssuesOf(nombre) != [] || IssuesOf(iva) != [] || IssuesOf(dir) != [];
      Failure(IssuesOf(doc) + IssuesOf(nombre) + IssuesOf(iva) + IssuesOf(dir))
  }

  /** The payment condition and the optional service and due dates. */
  function PaymentFields(o: seq<Property>): (r: Checked<Payment>)
    ensures r.Success? <==>
      && EnumField("CONDICION_PAGO", Default(Lookup(o, "CONDICION_PAGO"), Str("Contado")), PaymentConditions).Success?
      && OptionalDate("FchServDesde", Lookup(o, "FchServDesde")).Success?
      && OptionalDate("FchServHasta", Lookup(o, "FchServHasta")).Success?
      && OptionalDate("FchVtoPago", Lookup(o, "FchVtoPago")).Success?
    ensures r.Success? ==>
      && r.value.condicion in PaymentConditions
      && (Lookup(o, "CONDICION_PAGO").Undefined? ==> r.value.condicion == "Contado")
      && (r.value.fchServDesde.Some? ==> Text.IsDigits(r.value.fchServDesde.value, 8))
      && (r.value.fchServHasta.Some? ==> Text.IsDigits(r.value.fchServHasta.value, 8))
      && (r.value.fchVtoPago.Some? ==> Text.IsDigits(r.value.fchVtoPago.value, 8))
    ensures r.Failure? ==> r.error != []
  {
    var cond := EnumField("CONDICION_PAGO", Default(Lookup(o, "CONDICION_PAGO"), Str("Contado")), PaymentConditions);
    var desde := OptionalDate("FchServDesde", Lookup(o, "FchServDesde"));
    var hasta := OptionalDate("FchServHasta", Lookup(o, "FchServHasta"));
    var vto := OptionalDate("FchVtoPago", Lookup(o, "FchVtoPago"));
    if cond.Success? && desde.Success? && hasta.Success? && vto.Success?
    then Success(Payment(cond.value, desde.value, hasta.value, vto.value))
    else
      assert IssuesOf(cond) != [] || IssuesOf(desde) != [] || IssuesOf(hasta) != [] || IssuesOf(vto) != [];
      Failure(IssuesOf(cond) + IssuesOf(desde) + IssuesOf(hasta) + IssuesOf(vto))
  }

  /** The subtotal, the other taxes (default 0) and the total, none negative. */
  function TotalsFields(o: seq<Property>): (r: Checked<Totals>)
    ensures r.Success? <==>
      && AmountField("SUBTOTAL", Lookup(o, "SUBTOTAL")).Success?
      && AmountField("IMPORTE_OTROS_TRIBUTOS", Default(Lookup(o, "IMPORTE_OTROS_TRIBUTOS"), Num(0))).Success?
      && AmountField("IMPORTE_TOTAL", Lookup(o, "IMPORTE_TOTAL")).Success?
    ensures r.Success? ==>
      && r.value.subtotal >= 0 && r.value.otrosTributos >= 0 && r.value.total >= 0
      && (Lookup(o, "IMPORTE_OTROS_TRIBUTOS").Undefined? ==> r.value.otrosTributos == 0)
    ensures r.Failure? ==> r.error != []
  {
    var sub := AmountField("SUBTOTAL", Lookup(o, "SUBTOTAL"));
    var otros := AmountField("IMPORTE_OTROS_TRIBUTOS", Default(Lookup(o, "IMPORTE_OTROS_TRIBUTOS"), Num(0)));
    var total := AmountField("IMPORTE_TOTAL", Lookup(o, "IMPORTE_TOTAL"));
    if sub.Success? && otros.Success? && total.Success?
    then Success(Totals(sub.value, otros.value, total.value))
    else
      assert IssuesOf(sub) != [] || IssuesOf(otros) != [] || IssuesOf(total) != [];
      Failure(IssuesOf(sub) + IssuesOf(otros) + IssuesOf(total))
  }

  /** The authorisation code, its expiry date and its type (default `E`). */
  function AuthorizationFields(o: seq<Property>): (r: Checked<Authorization>)
    ensures r.Success? <==>
      && IdAsString("CAE_NUMBER", Lookup(o, "CAE_NUMBER")).Success?
      && DateField("CAE_EXPIRY_DATE", Lookup(o, "CAE_EXPIRY_DATE")).Success?
      && EnumField("TipoCodAut", Default(Lookup(o, "TipoCodAut"), Str("E")), AuthorizationTypes).Success?
    ensures r.Success? ==>
      && r.value.cae == ToJsString(Lookup(o, "CAE_NUMBER"))
      && Text.IsDigits(r.value.vencimiento, 8)
      && (r.value.tipoCodAut == "E" || r.value.tipoCodAut == "A")
      && (Lookup(o, "TipoCodAut").Undefined? ==> r.value.tipoCodAut == "E")
    ensures r.Failure? ==> r.error != []
  {
    var cae := IdAsString("CAE_NUMBER", Lookup(o, "CAE_NUMBER"));
    var vto := DateField("CAE_EXPIRY_DATE", Lookup(o, "CAE_EXPIRY_DATE"));
    var tipo := EnumField("TipoCodAut", Default(Lookup(o, "TipoCodAut"), Str("E")), AuthorizationTypes);
    if cae.Success? && vto.Success? && tipo.Success?
    then Success(Authorization(cae.value, vto.value, tipo.value))
    else
      assert IssuesOf(cae) != [] || IssuesOf(vto) != [] || IssuesOf(tipo) != [];
      Failure(IssuesOf(cae) + IssuesOf(vto) + IssuesOf(tipo))
  }

  // ---------------------------------------------------------------------------
  // The schema
  // ---------------------------------------------------------------------------

  /** What the schema guarantees of the input it accepts. */
  predicate Valid(x: Input)
  {
    && x.issuer.cbteTipo >= 1 && x.issuer.cbteLetra in Letters
    && x.voucher.ptoVta >= 1 && x.voucher.cbteNro >= 1
    && Text.IsDigits(x.voucher.cbteFch, 8) && |x.voucher.monId| >= 3 && x.voucher.monCotiz >= 0
    && IsDocNro(x.recipient.docNro)
    && x.payment.condicion in PaymentConditions
    && Text.IsDigits(x.authorization.vencimiento, 8)
    && x.authorization.tipoCodAut in AuthorizationTypes
  }

  /** Every group of an object accepted. */
  predicate Accepted(o: seq<Property>)
  {
    && IssuerFields(o).Success? && VoucherFields(o).Success? && RecipientFields(o).Success?
    && PaymentFields(o).Success? && TotalsFields(o).Success? && AuthorizationFields(o).Success?
    && ItemsField(Lookup(o, "INVOICE_ITEMS")).Success?
  }

  /** `CreatePDFInputSchema.parse`: a non-object is refused; otherwise the fields' issues in declaration order. */
  function Parse(v: Value): (r: Checked<Input>)
    ensures r.Success? <==> v.Obj? && Accepted(v.props)
    ensures r.Success? ==> Valid(r.value)
    ensures r.Failure? ==> r.error != []
  {
    if !v.Obj? then Failure([Issue("", InvalidType("object"))])
    else
      var o := v.props;
      var issuer := IssuerFields(o);
      var voucher := VoucherFields(o);
      var recipient := RecipientFields(o);
      var payment := PaymentFields(o);
      var totals := TotalsFields(o);
      var auth := AuthorizationFields(o);
      var items := ItemsField(Lookup(o, "INVOICE_ITEMS"));
      if issuer.Success? && voucher.Success? && recipient.Success? && payment.Success?
         && totals.Success? && auth.Success? && items.Success?
      then Success(Input(issuer.value, voucher.value, recipient.value, payment.value, totals.value, auth.value, items.value))
      else
        assert IssuesOf(issuer) != [] || IssuesOf(voucher) != [] || IssuesOf(recipient) != [] || IssuesOf(payment) != []
          || IssuesOf(totals) != [] || IssuesOf(auth) != [] || IssuesOf(items) != [];
        Failure(IssuesOf(issuer) + IssuesOf(voucher) + IssuesOf(recipient) + IssuesOf(payment)
          + IssuesOf(totals) + IssuesOf(auth) + IssuesOf(items))
  }

  /** The defaults: with the optional fields left out, they take the values the schema names. */
  lemma Defaults(o: seq<Property>)
    requires Accepted(o)
    requires Lookup(o, "MonId").Undefined? && Lookup(o, "MonCotiz").Undefined?
    requires Lookup(o, "CONDICION_PAGO").Undefined? && Lookup(o, "TipoCodAut").Undefined?
    requires Lookup(o, "INVOICE_ITEMS").Undefined? && Lookup(o, "DocNro").Undefined?
    ensures Parse(Record(o)).Success?
    ensures var x := Parse(Record(o)).value;
      && x.voucher.monId == "PES" && x.voucher.monCotiz == 1
      && x.payment.condicion == "Contado" && x.authorization.tipoCodAut == "E"
      && x.items == [] && x.recipient.docNro == ""
  {
  }
}
