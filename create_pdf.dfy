/**
 * The PDF tool's own logic around the remote calls: voucher type names and
 * letters, picking the voucher out of the response wrapper the SDK returns,
 * normalising the voucher's fields in place, deciding whether the
 * recipient is looked up, the two date formatters of the template, zero
 * padding of the point of sale and the voucher number, and the split/join
 * loop that fills the template's placeholders.
 */
module CreatePdf {
  import opened Wrappers
  import opened JsValue
  import Text
  import GenerateQRSchema
  import PdfHelpers

  // ---------------------------------------------------------------------------
  // Voucher types
  // ---------------------------------------------------------------------------

  /** The nine voucher types the tool knows by name. */
  const TypeNames: map<int, string> := map[
    1 := "Factura A", 2 := "Nota de Débito A", 3 := "Nota de Crédito A",
    6 := "Factura B", 7 := "Nota de Débito B", 8 := "Nota de Crédito B",
    11 := "Factura C", 12 := "Nota de Débito C", 13 := "Nota de Crédito C"]

  /** `getVoucherTypeName`: the known name, or `Tipo n`. */
  function VoucherTypeName(t: int): (r: string)
    ensures t in TypeNames ==> r == TypeNames[t]
    ensures t !in TypeNames ==> r == "Tipo " + NumberToString(t)
  {
    if t in TypeNames then TypeNames[t] else "Tipo " + NumberToString(t)
  }

  /** `getVoucherTypeLetter`: A, B or C by group, empty otherwise. */
  function VoucherTypeLetter(t: int): (r: string)
    ensures r in {"", "A", "B", "C"}
  {
    if t in {1, 2, 3} then "A"
    else if t in {6, 7, 8} then "B"
    else if t in {11, 12, 13} then "C"
    else ""
  }

  /**
   * The two tables agree: a type has a letter exactly when it has a name,
   * and then the name ends with a space and that letter; an unknown type is
   * named `Tipo n`.
   */
  lemma NameEndsWithLetter(t: int)
    ensures VoucherTypeLetter(t) != "" <==> t in TypeNames
    ensures t in TypeNames ==>
      var name := VoucherTypeName(t);
      |name| >= 2 && name[|name| - 2..] == " " + VoucherTypeLetter(t)
    ensures t !in TypeNames ==> Text.StartsWith(VoucherTypeName(t), "Tipo ")
  {
    if t !in TypeNames {
      var name := VoucherTypeName(t);
      assert name[..5] == "Tipo ";
    }
  }

  // ---------------------------------------------------------------------------
  // The response wrapper
  // ---------------------------------------------------------------------------

  /**
   * The voucher inside the SDK's reply: `FECompConsResp.ResultGet`, else
   * `FECompConsResp`, else `ResultGet`, else the reply itself, each taken
   * when it is truthy.
   */
  function SelectVoucher(raw: Value): (r: Value)
    ensures r == raw || Truthy(r)
    ensures Truthy(Get(Get(raw, "FECompConsResp"), "ResultGet")) ==> r == Get(Get(raw, "FECompConsResp"), "ResultGet")
  {
    var resp := Get(raw, "FECompConsResp");
    if Truthy(Get(resp, "ResultGet")) then Get(resp, "ResultGet")
    else if Truthy(resp) then resp
    else if Truthy(Get(raw, "ResultGet")) then Get(raw, "ResultGet")
    else raw
  }

  /** Each of the four reply shapes gives back the voucher it wraps. */
  lemma SelectVoucherUnwraps(v: Value)
    requires Truthy(v)
    ensures SelectVoucher(Record([Property("FECompConsResp", Record([Property("ResultGet", v)]))])) == v
    ensures !Truthy(Get(v, "ResultGet")) ==> SelectVoucher(Record([Property("FECompConsResp", v)])) == v
    ensures SelectVoucher(Record([Property("ResultGet", v)])) == v
    ensures !Truthy(Get(v, "FECompConsResp")) && !Truthy(Get(v, "ResultGet")) ==> SelectVoucher(v) == v
  {
    var inner := [Property("ResultGet", v)];
    LookupAt(inner, 0);
    LookupAt([Property("FECompConsResp", Record(inner))], 0);
    LookupAt([Property("FECompConsResp", v)], 0);
    IndexOfAbsent([Property("ResultGet", v)], "FECompConsResp");
  }

  const NoVoucherInfo := "No se pudo obtener información del comprobante"
  const VoucherNotFound := "Comprobante no encontrado"

  /**
   * The voucher the rest of the tool works on: the reply must be truthy,
   * and so must the selected voucher. A voucher that is not an object
   * cannot take the normalised fields (assigning a property to a primitive
   * throws in a module).
   */
  function LocateVoucher(info: Value): (r: Result<map<string, Value>, string>)
    ensures r.Success? <==> Truthy(info) && SelectVoucher(info).Obj?
    ensures r.Success? ==> forall k :: Field(r.value, k) == Lookup(SelectVoucher(info).props, k)
    ensures !Truthy(info) ==> r == Failure(NoVoucherInfo)
    ensures Truthy(info) && !Truthy(SelectVoucher(info)) ==> r == Failure(VoucherNotFound)
  {
    if !Truthy(info) then Failure(NoVoucherInfo)
    else
      var v := SelectVoucher(info);
      if !Truthy(v) then Failure(VoucherNotFound)
      else if !v.Obj? then Failure(CannotCreateProperty(v))
      else Success(Fields(v.props))
  }

  /** The engine's message for a property assignment on a primitive. */
  function CannotCreateProperty(v: Value): string
  {
    var kind := match v
      case Bool(_) => "boolean"
      case Num(_) => "number"
      case Str(_) => "string"
      case _ => "object";
    "Cannot create property 'PtoVta' on " + kind + " '" + ToJsString(v) + "'"
  }

  // ---------------------------------------------------------------------------
  // Normalisation
  // ---------------------------------------------------------------------------

  /** The fields the normalisation assigns. */
  const NormalizedKeys: set<string> :=
    {"PtoVta", "CbteTipo", "CbteNro", "CAE", "CAEFchVto", "MonId", "MonCotiz", "DocTipo", "DocNro"}

  /** The request's identifiers, used when the voucher lacks them. */
  datatype Request = Request(ptoVta: Value, cbteTipo: Value, cbteNro: Value)

  /** The value field `k` holds after normalisation. */
  function NormalizedField(v: map<string, Value>, req: Request, k: string): Value
  {
    if k == "PtoVta" then Coalesce(Field(v, "PtoVta"), req.ptoVta)
    else if k == "CbteTipo" then Coalesce(Field(v, "CbteTipo"), req.cbteTipo)
    else if k == "CbteNro" then Coalesce(Coalesce(Field(v, "CbteNro"), Field(v, "CbteDesde")), req.cbteNro)
    else if k == "CAE" then
      Coalesce(Coalesce(Coalesce(Field(v, "CAE"), Field(v, "CodAutorizacion")), Field(v, "CodAut")), Field(v, "codAutorizacion"))
    else if k == "CAEFchVto" then Coalesce(Coalesce(Field(v, "CAEFchVto"), Field(v, "FchVto")), Field(v, "caeFchVto"))
    else if k == "MonId" then Str(Text.ToUpper(ToJsString(Coalesce(Coalesce(Field(v, "MonId"), Field(v, "monId")), Str("PES")))))
    else if k == "MonCotiz" then Coalesce(Coalesce(Field(v, "MonCotiz"), Field(v, "ctz")), Num(1))
    else if k == "DocTipo" then Coalesce(Coalesce(Field(v, "DocTipo"), Field(v, "tipoDocRec")), Num(99))
    else if k == "DocNro" then Coalesce(Coalesce(Field(v, "DocNro"), Field(v, "nroDocRec")), Num(0))
    else Field(v, k)
  }

  /**
   * The in-place normalisation of the voucher's fields, one assignment at a
   * time, in four groups. No assignment reads a field an earlier one wrote,
   * so every field ends as `NormalizedField` of the voucher as received.
   */
  method Normalize(voucher: map<string, Value>, req: Request) returns (out: map<string, Value>)
    ensures forall k :: Field(out, k) == NormalizedField(voucher, req, k)
    ensures out.Keys == voucher.Keys + NormalizedKeys
  {
    var ids := AssignIdentifiers(voucher, req);
    var auth := AssignAuthorization(ids);
    var cur := AssignCurrency(auth);
    out := AssignRecipient(cur);
    NormalizedKeysAdded(voucher.Keys, ids.Keys, auth.Keys, cur.Keys, out.Keys);
    assert StepsHold(voucher, req, ids, auth, cur, out);
    StepsCompose(voucher, req, ids, auth, cur, out);
  }

  /** What the four steps promise, one after the other. */
  ghost predicate StepsHold(voucher: map<string, Value>, req: Request,
                    ids: map<string, Value>, auth: map<string, Value>, cur: map<string, Value>, out: map<string, Value>)
  {
    Field(ids, "PtoVta") == Coalesce(Field(voucher, "PtoVta"), req.ptoVta)
    && Field(ids, "CbteTipo") == Coalesce(Field(voucher, "CbteTipo"), req.cbteTipo)
    && Field(ids, "CbteNro") == Coalesce(Coalesce(Field(voucher, "CbteNro"), Field(voucher, "CbteDesde")), req.cbteNro)
    && (forall k :: k !in {"PtoVta", "CbteTipo", "CbteNro"} ==> Field(ids, k) == Field(voucher, k))
    && Field(auth, "CAE") ==
       Coalesce(Coalesce(Coalesce(Field(ids, "CAE"), Field(ids, "CodAutorizacion")), Field(ids, "CodAut")), Field(ids, "codAutorizacion"))
    && Field(auth, "CAEFchVto") == Coalesce(Coalesce(Field(ids, "CAEFchVto"), Field(ids, "FchVto")), Field(ids, "caeFchVto"))
    && (forall k :: k !in {"CAE", "CAEFchVto"} ==> Field(auth, k) == Field(ids, k))
    && Field(cur, "MonId") == Str(Text.ToUpper(ToJsString(Coalesce(Coalesce(Field(auth, "MonId"), Field(auth, "monId")), Str("PES")))))
    && Field(cur, "MonCotiz") == Coalesce(Coalesce(Field(auth, "MonCotiz"), Field(auth, "ctz")), Num(1))
    && (forall k :: k !in {"MonId", "MonCotiz"} ==> Field(cur, k) == Field(auth, k))
    && Field(out, "DocTipo") == Coalesce(Coalesce(Field(cur, "DocTipo"), Field(cur, "tipoDocRec")), Num(99))
    && Field(out, "DocNro") == Coalesce(Coalesce(Field(cur, "DocNro"), Field(cur, "nroDocRec")), Num(0))
    && (forall k :: k !in {"DocTipo", "DocNro"} ==> Field(out, k) == Field(cur, k))
  }

  /** The four steps in sequence give every field as `NormalizedField` of the voucher as received. */
  lemma StepsCompose(voucher: map<string, Value>, req: Request,
                     ids: map<string, Value>, auth: map<string, Value>, cur: map<string, Value>, out: map<string, Value>)
    requires StepsHold(voucher, req, ids, auth, cur, out)
    ensures forall k :: Field(out, k) == NormalizedField(voucher, req, k)
  {
    ReadsPrecedeWrites();
    NormalizedByField(voucher, req, out);
  }

  /** The four steps together add exactly the normalised fields. */
  lemma NormalizedKeysAdded(k0: set<string>, k1: set<string>, k2: set<string>, k3: set<string>, k4: set<string>)
    requires k1 == k0 + {"PtoVta", "CbteTipo", "CbteNro"}
    requires k2 == k1 + {"CAE", "CAEFchVto"}
    requires k3 == k2 + {"MonId", "MonCotiz"}
    requires k4 == k3 + {"DocTipo", "DocNro"}
    ensures k4 == k0 + NormalizedKeys
  {
    assert NormalizedKeys == {"PtoVta", "CbteTipo", "CbteNro"} + {"CAE", "CAEFchVto"} + {"MonId", "MonCotiz"} + {"DocTipo", "DocNro"};
  }

  /** The request's point of sale, voucher type and number where the voucher lacks them. */
  method AssignIdentifiers(voucher: map<string, Value>, req: Request) returns (out: map<string, Value>)
    ensures Field(out, "PtoVta") == Coalesce(Field(voucher, "PtoVta"), req.ptoVta)
    ensures Field(out, "CbteTipo") == Coalesce(Field(voucher, "CbteTipo"), req.cbteTipo)
    ensures Field(out, "CbteNro") == Coalesce(Coalesce(Field(voucher, "CbteNro"), Field(voucher, "CbteDesde")), req.cbteNro)
    ensures forall k :: k !in {"PtoVta", "CbteTipo", "CbteNro"} ==> Field(out, k) == Field(voucher, k)
    ensures out.Keys == voucher.Keys + {"PtoVta", "CbteTipo", "CbteNro"}
  {
    ReadsPrecedeWrites();
    out := voucher;
    out := out["PtoVta" := Coalesce(Field(out, "PtoVta"), req.ptoVta)];
    out := out["CbteTipo" := Coalesce(Field(out, "CbteTipo"), req.cbteTipo)];
    out := out["CbteNro" := Coalesce(Coalesce(Field(out, "CbteNro"), Field(out, "CbteDesde")), req.cbteNro)];
  }

  /** The authorisation code and its expiry under any of the names the service uses. */
  method AssignAuthorization(voucher: map<string, Value>) returns (out: map<string, Value>)
    ensures Field(out, "CAE") ==
      Coalesce(Coalesce(Coalesce(Field(voucher, "CAE"), Field(voucher, "CodAutorizacion")), Field(voucher, "CodAut")), Field(voucher, "codAutorizacion"))
    ensures Field(out, "CAEFchVto") == Coalesce(Coalesce(Field(voucher, "CAEFchVto"), Field(voucher, "FchVto")), Field(voucher, "caeFchVto"))
    ensures forall k :: k !in {"CAE", "CAEFchVto"} ==> Field(out, k) == Field(voucher, k)
    ensures out.Keys == voucher.Keys + {"CAE", "CAEFchVto"}
  {
    ReadsPrecedeWrites();
    out := voucher;
    out := out["CAE" :=
      Coalesce(Coalesce(Coalesce(Field(out, "CAE"), Field(out, "CodAutorizacion")), Field(out, "CodAut")), Field(out, "codAutorizacion"))];
    out := out["CAEFchVto" := Coalesce(Coalesce(Field(out, "CAEFchVto"), Field(out, "FchVto")), Field(out, "caeFchVto"))];
  }

  /** The currency, upper-cased and `PES` by default, and its rate, 1 by default. */
  method AssignCurrency(voucher: map<string, Value>) returns (out: map<string, Value>)
    ensures Field(out, "MonId") == Str(Text.ToUpper(ToJsString(Coalesce(Coalesce(Field(voucher, "MonId"), Field(voucher, "monId")), Str("PES")))))
    ensures Field(out, "MonCotiz") == Coalesce(Coalesce(Field(voucher, "MonCotiz"), Field(voucher, "ctz")), Num(1))
    ensures forall k :: k !in {"MonId", "MonCotiz"} ==> Field(out, k) == Field(voucher, k)
    ensures out.Keys == voucher.Keys + {"MonId", "MonCotiz"}
  {
    ReadsPrecedeWrites();
    out := voucher;
    out := out["MonId" := Str(Text.ToUpper(ToJsString(Coalesce(Coalesce(Field(out, "MonId"), Field(out, "monId")), Str("PES")))))];
    out := out["MonCotiz" := Coalesce(Coalesce(Field(out, "MonCotiz"), Field(out, "ctz")), Num(1))];
  }

  /** The recipient's document type and number, a final consumer's (99 and 0) by default. */
  method AssignRecipient(voucher: map<string, Value>) returns (out: map<string, Value>)
    ensures Field(out, "DocTipo") == Coalesce(Coalesce(Field(voucher, "DocTipo"), Field(voucher, "tipoDocRec")), Num(99))
    ensures Field(out, "DocNro") == Coalesce(Coalesce(Field(voucher, "DocNro"), Field(voucher, "nroDocRec")), Num(0))
    ensures forall k :: k !in {"DocTipo", "DocNro"} ==> Field(out, k) == Field(voucher, k)
    ensures out.Keys == voucher.Keys + {"DocTipo", "DocNro"}
  {
    ReadsPrecedeWrites();
    out := voucher;
    out := out["DocTipo" := Coalesce(Coalesce(Field(out, "DocTipo"), Field(out, "tipoDocRec")), Num(99))];
    out := out["DocNro" := Coalesce(Coalesce(Field(out, "DocNro"), Field(out, "nroDocRec")), Num(0))];
  }

  /** The fields each assignment reads are none of those written before it. */
  lemma ReadsPrecedeWrites()
    ensures "CbteTipo" !in {"PtoVta"}
    ensures "CbteNro" !in {"PtoVta", "CbteTipo"}
    ensures "CbteDesde" !in {"PtoVta", "CbteTipo"}
    ensures "CAE" !in {"PtoVta", "CbteTipo", "CbteNro"}
    ensures "CodAutorizacion" !in {"PtoVta", "CbteTipo", "CbteNro"}
    ensures "CodAut" !in {"PtoVta", "CbteTipo", "CbteNro"}
    ensures "codAutorizacion" !in {"PtoVta", "CbteTipo", "CbteNro"}
    ensures "CAEFchVto" !in {"PtoVta", "CbteTipo", "CbteNro", "CAE"}
    ensures "FchVto" !in {"PtoVta", "CbteTipo", "CbteNro", "CAE"}
    ensures "caeFchVto" !in {"PtoVta", "CbteTipo", "CbteNro", "CAE"}
    ensures "MonId" !in {"PtoVta", "CbteTipo", "CbteNro", "CAE", "CAEFchVto"}
    ensures "monId" !in {"PtoVta", "CbteTipo", "CbteNro", "CAE", "CAEFchVto"}
    ensures "MonCotiz" !in {"PtoVta", "CbteTipo", "CbteNro", "CAE", "CAEFchVto", "MonId"}
    ensures "ctz" !in {"PtoVta", "CbteTipo", "CbteNro", "CAE", "CAEFchVto", "MonId"}
    ensures "DocTipo" !in {"PtoVta", "CbteTipo", "CbteNro", "CAE", "CAEFchVto", "MonId", "MonCotiz"}
    ensures "tipoDocRec" !in {"PtoVta", "CbteTipo", "CbteNro", "CAE", "CAEFchVto", "MonId", "MonCotiz"}
    ensures "DocNro" !in {"PtoVta", "CbteTipo", "CbteNro", "CAE", "CAEFchVto", "MonId", "MonCotiz", "DocTipo"}
    ensures "nroDocRec" !in {"PtoVta", "CbteTipo", "CbteNro", "CAE", "CAEFchVto", "MonId", "MonCotiz", "DocTipo"}
  {
  }

  /** Nine fields as `NormalizedField` gives them and all others as received: the whole record is normalised. */
  lemma NormalizedByField(voucher: map<string, Value>, req: Request, out: map<string, Value>)
    requires Field(out, "PtoVta") == NormalizedField(voucher, req, "PtoVta")
    requires Field(out, "CbteTipo") == NormalizedField(voucher, req, "CbteTipo")
    requires Field(out, "CbteNro") == NormalizedField(voucher, req, "CbteNro")
    requires Field(out, "CAE") == NormalizedField(voucher, req, "CAE")
    requires Field(out, "CAEFchVto") == NormalizedField(voucher, req, "CAEFchVto")
    requires Field(out, "MonId") == NormalizedField(voucher, req, "MonId")
    requires Field(out, "MonCotiz") == NormalizedField(voucher, req, "MonCotiz")
    requires Field(out, "DocTipo") == NormalizedField(voucher, req, "DocTipo")
    requires Field(out, "DocNro") == NormalizedField(voucher, req, "DocNro")
    requires forall k :: k !in NormalizedKeys ==> Field(out, k) == Field(voucher, k)
    ensures forall k :: Field(out, k) == NormalizedField(voucher, req, k)
  {
    NormalizedFirstFive(voucher, req, out);
    NormalizedLastFour(voucher, req, out);
    forall k
      ensures Field(out, k) == NormalizedField(voucher, req, k)
    {
      if k !in NormalizedKeys {
        OtherFieldsUntouched(voucher, req, k);
      }
    }
  }

  /** The identifiers and authorisation fields, one key at a time. */
  lemma NormalizedFirstFive(voucher: map<string, Value>, req: Request, out: map<string, Value>)
    requires Field(out, "PtoVta") == NormalizedField(voucher, req, "PtoVta")
    requires Field(out, "CbteTipo") == NormalizedField(voucher, req, "CbteTipo")
    requires Field(out, "CbteNro") == NormalizedField(voucher, req, "CbteNro")
    requires Field(out, "CAE") == NormalizedField(voucher, req, "CAE")
    requires Field(out, "CAEFchVto") == NormalizedField(voucher, req, "CAEFchVto")
    ensures forall k :: k in {"PtoVta", "CbteTipo", "CbteNro", "CAE", "CAEFchVto"} ==>
      Field(out, k) == NormalizedField(voucher, req, k)
  {
  }

  /** The currency and recipient fields, one key at a time. */
  lemma NormalizedLastFour(voucher: map<string, Value>, req: Request, out: map<string, Value>)
    requires Field(out, "MonId") == NormalizedField(voucher, req, "MonId")
    requires Field(out, "MonCotiz") == NormalizedField(voucher, req, "MonCotiz")
    requires Field(out, "DocTipo") == NormalizedField(voucher, req, "DocTipo")
    requires Field(out, "DocNro") == NormalizedField(voucher, req, "DocNro")
    ensures forall k :: k in {"MonId", "MonCotiz", "DocTipo", "DocNro"} ==>
      Field(out, k) == NormalizedField(voucher, req, k)
  {
  }

  /** A field outside the nine is the one received. */
  lemma OtherFieldsUntouched(voucher: map<string, Value>, req: Request, k: string)
    requires k !in NormalizedKeys
    ensures NormalizedField(voucher, req, k) == Field(voucher, k)
  {
  }

  /** `??` keeps a value that is neither `null` nor `undefined`. */
  predicate IsSet(v: Value) { !v.Undefined? && !v.Null? }

  /**
   * A field the voucher already has keeps its value (the currency is only
   * upper-cased), every field the normalisation does not touch is left
   * alone, and a voucher with no recipient document becomes a final
   * consumer's: type 99, number 0.
   */
  lemma NormalizeKeepsSetFields(v: map<string, Value>, req: Request, k: string)
    ensures k in NormalizedKeys - {"MonId"} && IsSet(Field(v, k)) ==> NormalizedField(v, req, k) == Field(v, k)
    ensures k !in NormalizedKeys ==> NormalizedField(v, req, k) == Field(v, k)
    ensures k == "MonId" && Field(v, k).Str? ==> NormalizedField(v, req, k) == Str(Text.ToUpper(Field(v, k).s))
    ensures IsSet(NormalizedField(v, req, "DocTipo")) && IsSet(NormalizedField(v, req, "DocNro"))
    ensures !IsSet(Field(v, "DocTipo")) && !IsSet(Field(v, "tipoDocRec")) ==> NormalizedField(v, req, "DocTipo") == Num(99)
    ensures !IsSet(Field(v, "DocNro")) && !IsSet(Field(v, "nroDocRec")) ==> NormalizedField(v, req, "DocNro") == Num(0)
  {
  }

  /** With neither currency field set, the currency is `PES`. */
  lemma NormalizeDefaultCurrency(v: map<string, Value>, req: Request)
    requires !IsSet(Field(v, "MonId")) && !IsSet(Field(v, "monId"))
    ensures NormalizedField(v, req, "MonId") == Str("PES")
  {
    assert Text.ToUpper("PES") == "PES";
  }

  // ---------------------------------------------------------------------------
  // Recipient lookup
  // ---------------------------------------------------------------------------

  /** Which registry query, if any, identifies the recipient. */
  datatype RecipientQuery = NoQuery | TaxpayerByCuit(cuit: Value) | TaxpayerByDocument(doc: Value)

  /**
   * The recipient is looked up only when the registry is not skipped, the
   * document number is truthy and not 0, and the type is not 99 (final
   * consumer); a CUIT (80) is queried directly, a DNI (96) through its tax
   * id, any other type not at all.
   */
  function RecipientLookup(skipRegistry: bool, docNro: Value, docTipo: Value): (r: RecipientQuery)
    ensures !r.NoQuery? ==> !skipRegistry && Truthy(docNro) && docNro != Num(0) && docTipo != Num(99)
    ensures r.TaxpayerByCuit? <==> !skipRegistry && Truthy(docNro) && docTipo == Num(80)
    ensures r.TaxpayerByDocument? <==> !skipRegistry && Truthy(docNro) && docTipo == Num(96)
    ensures !r.NoQuery? ==> (r.TaxpayerByCuit? && r.cuit == docNro) || (r.TaxpayerByDocument? && r.doc == docNro)
  {
    if !skipRegistry && Truthy(docNro) && docNro != Num(0) && docTipo != Num(99) then
      if docTipo == Num(80) then TaxpayerByCuit(docNro)
      else if docTipo == Num(96) then TaxpayerByDocument(docNro)
      else NoQuery
    else NoQuery
  }

  /** A voucher normalised without any recipient document is never looked up. */
  lemma FinalConsumerNotLookedUp(v: map<string, Value>, req: Request, skipRegistry: bool)
    requires !IsSet(Field(v, "DocNro")) && !IsSet(Field(v, "nroDocRec"))
    ensures RecipientLookup(skipRegistry, NormalizedField(v, req, "DocNro"), NormalizedField(v, req, "DocTipo")).NoQuery?
  {
  }

  // ---------------------------------------------------------------------------
  // Template dates and numbers
  // ---------------------------------------------------------------------------

  /** The template's `formatDate`: any eight-character text is sliced as `YYYYMMDD`. */
  function FormatDate(s: string): (r: string)
    ensures |s| != 8 ==> r == s
    ensures |s| == 8 ==> |r| == 10 && r[2] == '/' && r[5] == '/'
  {
    if s == "" || |s| != 8 then s else PdfHelpers.DayMonthYear(s)
  }

  /** On an eight-digit date it agrees with the helper; on other eight-character texts it does not check. */
  lemma FormatDateAgrees(s: string)
    ensures Text.IsDigits(s, 8) ==> FormatDate(s) == PdfHelpers.FormatDateDDMMYYYY(Some(s))
    ensures FormatDate("2024-1-5") == "-5/-1/2024" && PdfHelpers.FormatDateDDMMYYYY(Some("2024-1-5")) == "2024-1-5"
  {
    var t := "2024-1-5";
    assert !Text.IsDigit(t[4]);
    assert t[6..8] == "-5" && t[4..6] == "-1" && t[0..4] == "2024";
  }

  /** `formatDateAny`: eight digits or an ISO date become `DD/MM/YYYY`; other texts stay. */
  function FormatDateAny(s: Option<string>): (r: string)
    ensures r == "" <==> PdfHelpers.Blank(s)
    ensures !PdfHelpers.Blank(s) && !Text.IsDigits(s.value, 8) && !GenerateQRSchema.IsIsoDate(s.value) ==> r == s.value
  {
    if PdfHelpers.Blank(s) then ""
    else if Text.IsDigits(s.value, 8) then PdfHelpers.DayMonthYear(s.value)
    else if GenerateQRSchema.IsIsoDate(s.value) then s.value[8..10] + "/" + s.value[5..7] + "/" + s.value[..4]
    else s.value
  }

  /** An eight-digit date and its ISO form are shown alike. */
  lemma FormatDateAnyReadsBothForms(s: string)
    requires Text.IsDigits(s, 8)
    ensures FormatDateAny(Some(s)) == PdfHelpers.FormatDateDDMMYYYY(Some(s))
    ensures FormatDateAny(Some(PdfHelpers.FormatDateISO(Some(s)))) == PdfHelpers.FormatDateDDMMYYYY(Some(s))
  {
    var iso := PdfHelpers.FormatDateISO(Some(s));
    PdfHelpers.IsoShape(s);
    PdfHelpers.IsoRoundTrip(s);
    assert !Text.IsDigit(iso[4]);
    assert iso[8..10] == s[6..8] && iso[5..7] == s[4..6] && iso[..4] == s[..4];
  }

  /** `n.toString().padStart(width, "0")`. */
  function PadNumber(n: int, width: nat): string
  {
    Text.PadStart(NumberToString(n), width, '0')
  }

  /** The template's point of sale: five digits for 1..99999, with the number's value. */
  function PointOfSale(ptoVta: int): (r: string)
    ensures 0 <= ptoVta < 100000 ==> Text.IsDigits(r, 5) && Text.Value(r) == ptoVta
  {
    if ptoVta >= 0 then
      PaddedAgrees(ptoVta, 5);
      assert Text.Pow10(5) == 100000;
      PadNumber(ptoVta, 5)
    else PadNumber(ptoVta, 5)
  }

  /** The template's voucher number: eight digits for 1..99999999, with the number's value. */
  function VoucherNumber(cbteNro: int): (r: string)
    ensures 0 <= cbteNro < 100000000 ==> Text.IsDigits(r, 8) && Text.Value(r) == cbteNro
  {
    if cbteNro >= 0 then
      PaddedAgrees(cbteNro, 8);
      assert Text.Pow10(8) == 100000000;
      PadNumber(cbteNro, 8)
    else PadNumber(cbteNro, 8)
  }

  /** For a natural number the padding is the helper's zero padding. */
  lemma PaddedAgrees(n: nat, width: nat)
    ensures PadNumber(n, width) == PdfHelpers.ZeroPadded(n, width)
  {
  }

  // ---------------------------------------------------------------------------
  // Placeholders
  // ---------------------------------------------------------------------------

  /** The placeholders of the template, in the order they are replaced. */
  const Placeholders: seq<string> := [
    "{{VOUCHER_TYPE_LETTER}}", "{{ISSUER_COMPANY_NAME}}", "{{ISSUER_CUIT}}", "{{ISSUER_ADDRESS}}",
    "{{ISSUER_TAX_CONDITION}}", "{{ISSUER_GROSS_INCOME}}", "{{ISSUER_START_DATE}}", "{{POINT_OF_SALE}}",
    "{{VOUCHER_NUMBER}}", "{{ISSUE_DATE}}", "{{RECIPIENT_CUIT}}", "{{RECIPIENT_NAME}}",
    "{{RECIPIENT_TAX_CONDITION}}", "{{RECIPIENT_ADDRESS}}", "{{PAYMENT_CONDITION}}", "{{SERVICE_DATE_FROM}}",
    "{{SERVICE_DATE_TO}}", "{{PAYMENT_DUE_DATE}}", "{{SUBTOTAL}}", "{{OTHER_TAXES}}",
    "{{TOTAL_AMOUNT}}", "{{CAE_NUMBER}}", "{{CAE_EXPIRY_DATE}}", "{{QR_CODE_DATA}}", "{{INVOICE_ITEMS}}"]

  /** The replacement table: each placeholder with its text. */
  function Replacements(values: seq<string>): (r: seq<(string, string)>)
    requires |values| == |Placeholders|
    ensures |r| == |Placeholders|
    ensures forall i :: 0 <= i < |r| ==> r[i] == (Placeholders[i], values[i])
    ensures forall i :: 0 <= i < |r| ==> |r[i].0| > 0
  {
    PlaceholdersNonEmpty();
    seq(|values|, i requires 0 <= i < |values| => (Placeholders[i], values[i]))
  }

  lemma PlaceholdersNonEmpty()
    ensures forall i :: 0 <= i < |Placeholders| ==> |Placeholders[i]| > 0
  {
  }

  /** The text after the first `n` replacements of the loop. */
  function ApplyAll(s: string, reps: seq<(string, string)>): string
    requires forall i :: 0 <= i < |reps| ==> |reps[i].0| > 0
  {
    if reps == [] then s
    else
      var last := reps[|reps| - 1];
      Text.ReplaceAll(ApplyAll(s, reps[..|reps| - 1]), last.0, last.1)
  }

  /** `for (const [p, v] of Object.entries(replacements)) html = html.split(p).join(v)`. */
  method FillTemplate(template: string, reps: seq<(string, string)>) returns (html: string)
    requires forall i :: 0 <= i < |reps| ==> |reps[i].0| > 0
    ensures html == ApplyAll(template, reps)
  {
    html := template;
    for i := 0 to |reps|
      invariant html == ApplyAll(template, reps[..i])
    {
      assert reps[..i + 1][..i] == reps[..i];
      html := Text.ReplaceAll(html, reps[i].0, reps[i].1);
    }
    assert reps[..|reps|] == reps;
  }

  /**
   * One pass replaces every occurrence: the text is cut at each occurrence
   * of the placeholder, scanning left to right, into pieces that hold none,
   * and the result is those pieces joined by the value.
   */
  lemma ReplaceAllCutsEveryOccurrence(s: string, p: string, v: string)
    requires |p| > 0
    ensures var pieces := Text.Split(s, p);
      && Text.Join(pieces, p) == s
      && (forall i :: 0 <= i < |pieces| ==> !Text.Contains(pieces[i], p))
      && Text.ReplaceAll(s, p, v) == Text.Join(pieces, v)
  {
    Text.JoinSplit(s, p);
    Text.SplitPiecesFree(s, p);
  }

  /** A text without the placeholder is one piece. */
  lemma {:induction false} SplitAbsent(s: string, p: string)
    requires |p| > 0 && !Text.Contains(s, p)
    ensures Text.Split(s, p) == [s]
    decreases |s|
  {
    if Text.StartsWith(s, p) {
      assert s[..|p|] == p && Text.OccursAt(s, p, 0);
    } else if s != [] {
      if Text.Contains(s[1..], p) {
        var j :| 0 <= j <= |s[1..]| - |p| && Text.OccursAt(s[1..], p, j);
        assert s[1 + j..1 + j + |p|] == s[1..][j..j + |p|];
        assert Text.OccursAt(s, p, 1 + j);
      }
      SplitAbsent(s[1..], p);
      assert [s[0]] + s[1..] == s;
    }
  }

  /** A template holding none of the placeholders comes out of the loop unchanged. */
  lemma {:induction false} ApplyAllAbsent(s: string, reps: seq<(string, string)>)
    requires forall i :: 0 <= i < |reps| ==> |reps[i].0| > 0
    requires forall i :: 0 <= i < |reps| ==> !Text.Contains(s, reps[i].0)
    ensures ApplyAll(s, reps) == s
  {
    if reps != [] {
      var front := reps[..|reps| - 1];
      assert forall i :: 0 <= i < |front| ==> front[i] == reps[i];
      ApplyAllAbsent(s, front);
      SplitAbsent(s, reps[|reps| - 1].0);
    }
  }

  /** The card's address cell and similar texts: `v || ""` then `String(...)`. */
  function OrEmpty(v: Value): (r: string)
    ensures !Truthy(v) ==> r == ""
    ensures v.Str? ==> r == v.s
  {
    if Truthy(v) then ToJsString(v) else ""
  }

  // ---------------------------------------------------------------------------
  // Items of the tool's own table
  // ---------------------------------------------------------------------------

  /** `it.code ?? String(idx + 1).padStart(3, "0")`. */
  function ToolItemCode(code: Option<string>, idx: nat): (r: string)
    ensures code.Some? ==> r == code.value
    ensures code.None? ==> r == PdfHelpers.ItemCode(idx)
  {
    if code.Some? then code.value else PdfHelpers.ItemCode(idx)
  }

  /** `(it.description || "")` escaped: never a raw `<` or `>`. */
  function ToolItemDescription(d: Option<string>): (r: string)
    ensures '<' !in r && '>' !in r
    ensures d.None? ==> r == ""
  {
    PdfHelpers.EscapeHtml(if d.None? then "" else d.value)
  }
}
