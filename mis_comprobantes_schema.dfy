/**
 * The input schema of the "Mis Comprobantes" listing: the direction
 * (issued or received), the issue-date range as `DD/MM/YYYY - DD/MM/YYYY`,
 * optional lists of points of sale and voucher types, an optional
 * voucher-number range that must not be inverted, the recipient's
 * document (its number reduced to its digits), an optional 14-digit
 * authorisation code, and whether to wait for the automation (default
 * true).
 */
module MisComprobantesSchema {
  import opened Wrappers
  import opened JsValue
  import opened Validation
  import Text
  import PdfHelpers

  const Directions: seq<string> := ["E", "R"]
  const DateRangePattern := "^(\\d{2})\\/(\\d{2})\\/(\\d{4})\\s-\\s(\\d{2})\\/(\\d{2})\\/(\\d{4})$"
  const CodePattern := "^\\d{14}$"
  const RangeMessage :=
    "El rango de comprobantes es inválido: 'comprobanteDesde' debe ser menor o igual a 'comprobanteHasta'."

  // ---------------------------------------------------------------------------
  // Fields
  // ---------------------------------------------------------------------------

  /** `DD/MM/YYYY`, digits only checked by position (no calendar check). */
  predicate IsDayMonthYear(s: string)
  {
    && |s| == 10
    && Text.IsDigit(s[0]) && Text.IsDigit(s[1]) && s[2] == '/'
    && Text.IsDigit(s[3]) && Text.IsDigit(s[4]) && s[5] == '/'
    && Text.AllDigits(s[6..])
  }

  /** `FechaRangoRegex`: two `DD/MM/YYYY` dates around a dash with one white-space character on each side. */
  predicate IsDateRange(s: string)
  {
    && |s| == 23
    && IsDayMonthYear(s[..10])
    && Text.IsJsWhitespace(s[10]) && s[11] == '-' && Text.IsJsWhitespace(s[12])
    && IsDayMonthYear(s[13..])
  }

  /** `fechaEmision`. */
  function DateRangeField(v: Value): (r: Checked<string>)
    ensures r.Success? <==> v.Str? && IsDateRange(v.s)
    ensures r.Success? ==> r.value == v.s
    ensures r.Failure? ==> r.error != []
  {
    match StringField("fechaEmision", v)
    case Failure(e) => Failure(e)
    case Success(s) =>
      if IsDateRange(s) then Success(s) else Failure([Issue("fechaEmision", InvalidString(DateRangePattern))])
  }

  /** `z.array(z.number().int().min(1))` from position `i` on. */
  function PositivesFrom(path: string, xs: seq<Value>, i: nat): (r: Checked<seq<int>>)
    requires i <= |xs|
    ensures r.Success? <==> forall j :: i <= j < |xs| ==> xs[j].Num? && xs[j].n >= 1
    ensures r.Success? ==> |r.value| == |xs| - i && forall j :: i <= j < |xs| ==> r.value[j - i] == xs[j].n
    ensures r.Failure? ==> r.error != []
    decreases |xs| - i
  {
    if i == |xs| then Success([])
    else
      var at := path + "." + Text.NatToString(i);
      var head := AtLeast(at, NumberField(at, xs[i]), 1);
      var tail := PositivesFrom(path, xs, i + 1);
      if head.Success? && tail.Success? then Success([head.value] + tail.value)
      else
        assert IssuesOf(head) != [] || IssuesOf(tail) != [];
        Failure(IssuesOf(head) + IssuesOf(tail))
  }

  /** Every element a whole number of at least 1. */
  predicate AllPositive(xs: seq<int>) { forall j :: 0 <= j < |xs| ==> xs[j] >= 1 }

  /** `puntosVenta` and `tiposComprobantes`: an optional list of whole numbers of at least 1. */
  function PositiveList(path: string, v: Value): (r: Checked<Option<seq<int>>>)
    ensures r.Success? <==> v.Undefined? || (v.Arr? && forall j :: 0 <= j < |v.items| ==> v.items[j].Num? && v.items[j].n >= 1)
    ensures r.Success? ==> (r.value.Some? <==> v.Arr?)
    ensures r.Success? && r.value.Some? ==> AllPositive(r.value.value) && |r.value.value| == |v.items|
    ensures r.Success? && r.value.Some? ==> forall j :: 0 <= j < |v.items| ==> r.value.value[j] == v.items[j].n
    ensures r.Success? ==> r.value == GivenNumbers(v)
    ensures r.Failure? ==> r.error != []
  {
    if v.Undefined? then Success(None)
    else match v
      case Arr(xs) =>
        (match PositivesFrom(path, xs, 0)
         case Failure(e) => Failure(e)
         case Success(ns) =>
           assert forall j :: 0 <= j < |ns| ==> ns[j] == xs[j - 0].n;
           assert ns == seq(|xs|, j requires 0 <= j < |xs| => xs[j].n);
           Success(Some(ns)))
      case _ => Failure([Issue(path, InvalidType("array"))])
  }

  /** `comprobanteDesde` and `comprobanteHasta`: an optional whole number of at least 1. */
  function OptionalPositive(path: string, v: Value): (r: Checked<Option<int>>)
    ensures r.Success? <==> v.Undefined? || (v.Num? && v.n >= 1)
    ensures r.Success? ==> (r.value.Some? <==> !v.Undefined?)
    ensures r.Success? && r.value.Some? ==> r.value.value == v.n >= 1
    ensures r.Failure? ==> r.error != []
  {
    OptionalField(v, AtLeast(path, NumberField(path, v), 1))
  }

  /** Only the digits of a text, in order. */
  function DigitsOf(s: string): (r: string)
    ensures Text.AllDigits(r)
    ensures Text.AllDigits(s) ==> r == s
  {
    Text.Filter(s, Text.IsDigit)
  }

  /** Reducing to digits keeps every digit and is idempotent. */
  lemma DigitsOfKeeps(s: string, c: char)
    ensures Text.IsDigit(c) && c in s ==> c in DigitsOf(s)
    ensures DigitsOf(DigitsOf(s)) == DigitsOf(s)
  {
    if Text.IsDigit(c) && c in s {
      Text.FilterKeepsAll(s, Text.IsDigit, c);
    }
  }

  /**
   * `nroDoc`: absent stays absent; a string or number is reduced to its
   * digits (`/\D+/g` replaced by nothing); `null` is refused by the union.
   */
  function NroDocField(v: Value): (r: Checked<Option<string>>)
    ensures r.Success? <==> v.Undefined? || v.Str? || v.Num?
    ensures r.Success? ==> (r.value.Some? <==> !v.Undefined?)
    ensures r.Success? && r.value.Some? ==> r.value.value == DigitsOf(ToJsString(v))
    ensures r.Failure? ==> r.error != []
  {
    if v.Undefined? then Success(None)
    else match IdAsString("nroDoc", v)
      case Failure(e) => Failure(e)
      case Success(s) => Success(Some(DigitsOf(s)))
  }

  /** A separator between two parts of a document number (a dot, a dash, a blank) is dropped and nothing else changes. */
  lemma DigitsOfDropsSeparator(a: string, c: char, b: string)
    requires !Text.IsDigit(c)
    ensures DigitsOf(a + [c] + b) == DigitsOf(a) + DigitsOf(b)
  {
    Text.FilterAppend(a + [c], b, Text.IsDigit);
    Text.FilterAppend(a, [c], Text.IsDigit);
    assert [c][1..] == [];
    assert DigitsOf([c]) == [];
  }

  /** `codigoAutorizacion`: absent, or exactly 14 digits. */
  function CodeField(v: Value): (r: Checked<Option<string>>)
    ensures r.Success? <==> v.Undefined? || (v.Str? && Text.IsDigits(v.s, 14))
    ensures r.Success? ==> (r.value.Some? <==> !v.Undefined?)
    ensures r.Success? && r.value.Some? ==> r.value.value == v.s
    ensures r.Success? ==> r.value == (if v.Str? then Some(v.s) else None)
    ensures r.Failure? ==> r.error != []
  {
    var code := match StringField("codigoAutorizacion", v)
      case Failure(e) => Failure(e)
      case Success(s) =>
        if Text.IsDigits(s, 14) then Success(s) else Failure([Issue("codigoAutorizacion", InvalidString(CodePattern))]);
    OptionalField(v, code)
  }

  // ---------------------------------------------------------------------------
  // The schema
  // ---------------------------------------------------------------------------

  /** The arguments once the schema accepted them. */
  datatype Params = Params(
    t: string,
    fechaEmision: string,
    puntosVenta: Option<seq<int>>,
    tiposComprobantes: Option<seq<int>>,
    comprobanteDesde: Option<int>,
    comprobanteHasta: Option<int>,
    tipoDoc: Option<int>,
    nroDoc: Option<string>,
    codigoAutorizacion: Option<string>,
    wait: bool)

  /** The refinement: with both numbers given, the range is not inverted. */
  predicate RangeOrdered(desde: Option<int>, hasta: Option<int>)
  {
    desde.Some? && hasta.Some? ==> desde.value <= hasta.value
  }

  /** What the schema guarantees of the arguments it accepts. */
  predicate Valid(p: Params)
  {
    && p.t in Directions
    && IsDateRange(p.fechaEmision)
    && (p.puntosVenta.Some? ==> AllPositive(p.puntosVenta.value))
    && (p.tiposComprobantes.Some? ==> AllPositive(p.tiposComprobantes.value))
    && (p.comprobanteDesde.Some? ==> p.comprobanteDesde.value >= 1)
    && (p.comprobanteHasta.Some? ==> p.comprobanteHasta.value >= 1)
    && RangeOrdered(p.comprobanteDesde, p.comprobanteHasta)
    && (p.nroDoc.Some? ==> Text.AllDigits(p.nroDoc.value))
    && (p.codigoAutorizacion.Some? ==> Text.IsDigits(p.codigoAutorizacion.value, 14))
  }

  /** `MisComprobantesInputObject.parse`: the fields, issues in declaration order. */
  function ParseObject(v: Value): (r: Checked<Params>)
    ensures r.Success? <==>
      && v.Obj?
      && EnumField("t", Lookup(v.props, "t"), Directions).Success?
      && DateRangeField(Lookup(v.props, "fechaEmision")).Success?
      && PositiveList("puntosVenta", Lookup(v.props, "puntosVenta")).Success?
      && PositiveList("tiposComprobantes", Lookup(v.props, "tiposComprobantes")).Success?
      && OptionalPositive("comprobanteDesde", Lookup(v.props, "comprobanteDesde")).Success?
      && OptionalPositive("comprobanteHasta", Lookup(v.props, "comprobanteHasta")).Success?
      && OptionalField(Lookup(v.props, "tipoDoc"), NumberField("tipoDoc", Lookup(v.props, "tipoDoc"))).Success?
      && NroDocField(Lookup(v.props, "nroDoc")).Success?
      && CodeField(Lookup(v.props, "codigoAutorizacion")).Success?
      && BooleanField("wait", Default(Lookup(v.props, "wait"), Bool(true))).Success?
    ensures r.Success? ==>
      && r.value.t in Directions && IsDateRange(r.value.fechaEmision)
      && Lookup(v.props, "t") == Str(r.value.t) && Lookup(v.props, "fechaEmision") == Str(r.value.fechaEmision)
      && (r.value.comprobanteDesde.Some? <==> !Lookup(v.props, "comprobanteDesde").Undefined?)
      && (r.value.comprobanteHasta.Some? <==> !Lookup(v.props, "comprobanteHasta").Undefined?)
      && r.value.wait == (Lookup(v.props, "wait").Undefined? || Lookup(v.props, "wait").b)
    ensures r.Success? ==>
      && r.value.comprobanteDesde == GivenNumber(Lookup(v.props, "comprobanteDesde"))
      && r.value.comprobanteHasta == GivenNumber(Lookup(v.props, "comprobanteHasta"))
    ensures r.Success? ==> Valid(r.value) || !RangeOrdered(r.value.comprobanteDesde, r.value.comprobanteHasta)
    ensures r.Failure? ==> r.error != []
  {
    if !v.Obj? then Failure([Issue("", InvalidType("object"))])
    else
      var o := v.props;
      var t := EnumField("t", Lookup(o, "t"), Directions);
      var fecha := DateRangeField(Lookup(o, "fechaEmision"));
      var ptos := PositiveList("puntosVenta", Lookup(o, "puntosVenta"));
      var tipos := PositiveList("tiposComprobantes", Lookup(o, "tiposComprobantes"));
      var desde := OptionalPositive("comprobanteDesde", Lookup(o, "comprobanteDesde"));
      var hasta := OptionalPositive("comprobanteHasta", Lookup(o, "comprobanteHasta"));
      var tipoDoc := OptionalField(Lookup(o, "tipoDoc"), NumberField("tipoDoc", Lookup(o, "tipoDoc")));
      var nroDoc := NroDocField(Lookup(o, "nroDoc"));
      var code := CodeField(Lookup(o, "codigoAutorizacion"));
      var wait := BooleanField("wait", Default(Lookup(o, "wait"), Bool(true)));
      if && t.Success? && fecha.Success? && ptos.Success? && tipos.Success? && desde.Success?
         && hasta.Success? && tipoDoc.Success? && nroDoc.Success? && code.Success? && wait.Success?
      then
        Success(Params(t.value, fecha.value, ptos.value, tipos.value, desde.value, hasta.value,
          tipoDoc.value, nroDoc.value, code.value, wait.value))
      else
        assert IssuesOf(t) != [] || IssuesOf(fecha) != [] || IssuesOf(ptos) != [] || IssuesOf(tipos) != []
          || IssuesOf(desde) != [] || IssuesOf(hasta) != [] || IssuesOf(tipoDoc) != [] || IssuesOf(nroDoc) != []
          || IssuesOf(code) != [] || IssuesOf(wait) != [];
        Failure(IssuesOf(t) + IssuesOf(fecha) + IssuesOf(ptos) + IssuesOf(tipos) + IssuesOf(desde)
          + IssuesOf(hasta) + IssuesOf(tipoDoc) + IssuesOf(nroDoc) + IssuesOf(code) + IssuesOf(wait))
  }

  /**
   * The remaining fields of an accepted object hold what was given: the
   * document type and the two lists their numbers, the document number
   * its digits and the authorisation code its text.
   */
  lemma ParsedFieldsAreGiven(v: Value)
    requires ParseObject(v).Success?
    ensures var p := ParseObject(v).value;
      && p.tipoDoc == GivenNumber(Lookup(v.props, "tipoDoc"))
      && p.puntosVenta == GivenNumbers(Lookup(v.props, "puntosVenta"))
      && p.tiposComprobantes == GivenNumbers(Lookup(v.props, "tiposComprobantes"))
      && p.nroDoc ==
           (if Lookup(v.props, "nroDoc").Undefined? then None else Some(DigitsOf(ToJsString(Lookup(v.props, "nroDoc")))))
      && p.codigoAutorizacion ==
           (if Lookup(v.props, "codigoAutorizacion").Str? then Some(Lookup(v.props, "codigoAutorizacion").s) else None)
  {
  }

  /** A number field as the refinement reads it: its value when it is a number. */
  function GivenNumber(v: Value): Option<int>
  {
    if v.Num? then Some(v.n) else None
  }

  /** A list field as given: the numbers of an array of numbers. */
  function GivenNumbers(v: Value): Option<seq<int>>
  {
    if v.Arr? && forall j :: 0 <= j < |v.items| ==> v.items[j].Num? then
      Some(seq(|v.items|, j requires 0 <= j < |v.items| => v.items[j].n))
    else None
  }

  /** An optional list that is neither absent nor an array of numbers: Zod 3 aborts on it. */
  predicate ListAborts(v: Value)
  {
    !v.Undefined? && !(v.Arr? && forall j :: 0 <= j < |v.items| ==> v.items[j].Num?)
  }

  /**
   * Some field fails in a way that aborts the object in Zod 3: a wrong
   * type, an enumeration or union that refuses the value. A failed
   * `.regex`, `.int` or `.min` only marks the object dirty.
   */
  predicate Aborts(o: seq<Property>)
  {
    || EnumField("t", Lookup(o, "t"), Directions).Failure?
    || !Lookup(o, "fechaEmision").Str?
    || ListAborts(Lookup(o, "puntosVenta"))
    || ListAborts(Lookup(o, "tiposComprobantes"))
    || !(Lookup(o, "comprobanteDesde").Undefined? || Lookup(o, "comprobanteDesde").Num?)
    || !(Lookup(o, "comprobanteHasta").Undefined? || Lookup(o, "comprobanteHasta").Num?)
    || !(Lookup(o, "tipoDoc").Undefined? || Lookup(o, "tipoDoc").Num?)
    || !(Lookup(o, "nroDoc").Undefined? || Lookup(o, "nroDoc").Str? || Lookup(o, "nroDoc").Num?)
    || !(Lookup(o, "codigoAutorizacion").Undefined? || Lookup(o, "codigoAutorizacion").Str?)
    || !(Lookup(o, "wait").Undefined? || Lookup(o, "wait").Bool?)
  }

  /** The refinement's issue: none unless both numbers are given and inverted. */
  function RangeIssues(desde: Option<int>, hasta: Option<int>): (r: seq<Issue>)
    ensures r == [] <==> RangeOrdered(desde, hasta)
  {
    Check(RangeOrdered(desde, hasta), "comprobanteDesde", Custom(RangeMessage))
  }

  /**
   * `MisComprobantesInputSchema.parse`: the object, then the refinement,
   * which reports on `comprobanteDesde`. With Zod 3 the refinement runs
   * unless the input is not an object or a field aborted, and its issue
   * follows the fields'.
   */
  function Parse(v: Value): (r: Checked<Params>)
    ensures r.Success? <==> ParseObject(v).Success? && RangeOrdered(ParseObject(v).value.comprobanteDesde, ParseObject(v).value.comprobanteHasta)
    ensures r.Success? ==> r == ParseObject(v) && Valid(r.value)
    ensures ParseObject(v).Success? && !r.Success? ==> r.error == [Issue("comprobanteDesde", Custom(RangeMessage))]
    ensures ParseObject(v).Failure? ==> r.Failure? && ParseObject(v).error <= r.error
    ensures !v.Obj? || Aborts(v.props) ==> r == ParseObject(v)
    ensures v.Obj? && !Aborts(v.props) && ParseObject(v).Failure? ==>
      r.error == ParseObject(v).error
        + RangeIssues(GivenNumber(Lookup(v.props, "comprobanteDesde")), GivenNumber(Lookup(v.props, "comprobanteHasta")))
  {
    if !v.Obj? || Aborts(v.props) then
      AbortsRefused(v);
      ParseObject(v)
    else
      var range := RangeIssues(GivenNumber(Lookup(v.props, "comprobanteDesde")), GivenNumber(Lookup(v.props, "comprobanteHasta")));
      match ParseObject(v)
      case Success(p) => if range == [] then Success(p) else Failure(range)
      case Failure(e) => Failure(e + range)
  }

  /** An input that is not an object, or one of whose fields aborts, is refused by the object schema. */
  lemma AbortsRefused(v: Value)
    requires !v.Obj? || Aborts(v.props)
    ensures ParseObject(v).Failure?
  {
  }

  /** With only one end of the voucher range given, the refinement always passes. */
  lemma OneEndAlwaysOrdered(desde: Option<int>, hasta: Option<int>)
    requires desde.None? || hasta.None?
    ensures RangeOrdered(desde, hasta)
  {
  }

  /** Two eight-digit dates written as `DD/MM/YYYY` by the PDF helpers and joined by ` - ` form an accepted range. */
  lemma FormattedRangeAccepted(a: string, b: string)
    requires Text.IsDigits(a, 8) && Text.IsDigits(b, 8)
    ensures IsDateRange(PdfHelpers.FormatDateDDMMYYYY(Some(a)) + " - " + PdfHelpers.FormatDateDDMMYYYY(Some(b)))
  {
    var x, y := PdfHelpers.FormatDateDDMMYYYY(Some(a)), PdfHelpers.FormatDateDDMMYYYY(Some(b));
    FormattedDayMonthYear(a);
    FormattedDayMonthYear(b);
    var s := x + " - " + y;
    assert s[..10] == x;
    assert s[13..] == y;
  }

  /** An eight-digit date written as `DD/MM/YYYY` by the PDF helpers has the shape the range pattern wants. */
  lemma FormattedDayMonthYear(a: string)
    requires Text.IsDigits(a, 8)
    ensures IsDayMonthYear(PdfHelpers.FormatDateDDMMYYYY(Some(a)))
  {
    var x := PdfHelpers.FormatDateDDMMYYYY(Some(a));
    assert x == a[6..8] + "/" + a[4..6] + "/" + a[..4];
    assert x[6..] == a[..4];
    assert Text.IsDigit(a[6]) && Text.IsDigit(a[7]) && Text.IsDigit(a[4]) && Text.IsDigit(a[5]);
  }
}
