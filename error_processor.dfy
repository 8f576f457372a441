/**
 * The central error processor every tool reports its failures through.
 * An error of any shape becomes a message, the error itself as details,
 * and instructions for the assistant: looked up by the error's code
 * (found in the object, to a depth of two `details` levels, or else in
 * the message as `(ddd)`), else the Zod-validation text for a Zod-like
 * error, else a conservative default. The table of instructions can be
 * extended or overwritten one entry or one batch at a time.
 */
module ErrorProcessor {
  import opened Wrappers
  import opened JsValue
  import Json
  import Text

  /** A key of the instruction table: numeric (an AFIP code) or a string for a logical group. */
  datatype ErrorCode = NumCode(n: int) | StrCode(s: string)

  /** The answer for a processed error. */
  datatype ProcessedToolError = ProcessedToolError(error: string, details: Value, instructions: string)

  const UnknownError: string := "Error desconocido"

  const DefaultInstructions: string :=
    "Informa al usuario que ocurrió un error desconocido y solicita revisión humana. "
    + "Muestra el mensaje de error y cualquier código disponible. No reintentes automáticamente sin correcciones."

  const ZodValidation: ErrorCode := StrCode("ZOD_VALIDATION")

  // ---------------------------------------------------------------------
  // The instruction table shipped with the server
  // ---------------------------------------------------------------------

  const Instructions10004: string :=
    "Acción para código 10004 (PtoVta inválido):\n"
    + "- El campo PtoVta debe estar comprendido entre 1 y 99998.\n"
    + "- Para obtener puntos de venta disponibles, usar tool get_sales_points.\n"
    + "- Solicita al usuario que proporcione un número de punto de venta válido dentro del rango permitido.\n"
    + "- Recuerda que el punto de venta debe estar habilitado en AFIP para el emisor.\n"
    + "- No reintentes la operación hasta que se proporcione un valor válido para PtoVta.\n"
    + "- Si el usuario no especifica, se tiene que obtener sus puntos de venta disponibles y pedirle que elija uno."

  const Instructions10007: string :=
    "Acción para código 10007 (CbteTipo inválido):\n"
    + "- El campo CbteTipo debe ser uno de los tipos de comprobante válidos:\n"
    + "  * Clase A: 01, 02, 03, 04, 05, 34, 39, 60, 63, 201, 202, 203\n"
    + "  * Clase B: 06, 07, 08, 09, 10, 35, 40, 61, 64, 206, 207, 208\n"
    + "  * Clase C: 11, 12, 13, 15, 211, 212, 213\n"
    + "  * Clase M: 51, 52, 53, 54\n"
    + "  * Bienes Usados: 49\n"
    + "- Para obtener tipos de comprobante disponibles, usar tool get_voucher_types.\n"
    + "- Si el usuario no ha especificado el tipo de Factura, se tiene que obtener sus tipos de comprobante disponibles y recomendarle elegir uno.\n"
    + "- Si se informa más de un comprobante, todos deben ser del mismo tipo.\n"
    + "- No reintentes la operación hasta que se proporcione un valor válido para CbteTipo."

  const Instructions10016: string :=
    "Acción para código 10016 (concepto obligatorio):\n"
    + "Fecha del comprobante (yyyyMMdd). Para concepto=1: hasta 5 días anteriores/posteriores. Para 2 o 3: hasta 10 días. Si el usuario no especifica, usar la fecha actual"

  const Instructions10031: string :=
    "Acción para código 10031 (FchServDesde obligatorio):\n"
    + "- El campo 'fecha desde del servicio a facturar' <FchServDesde> es obligatorio si se informa 'fecha hasta del servicio a facturar' <FchServHasta> y/o 'fecha de vencimiento para el pago' <FchVtoPago>.\n"
    + "- Solicita al usuario que proporcione la fecha de inicio del servicio (FchServDesde) en formato AAAAMMDD.\n"
    + "- Recuerda que para servicios, las tres fechas deben estar presentes y ser coherentes entre sí.\n"
    + "- No reintentes la operación hasta que se proporcione un valor válido para FchServDesde.\n"
    + "- El LLM no debe asumir esa información"

  const Instructions10032: string :=
    "Acción para código 10032 (FchServDesde posterior a FchServHasta):\n"
    + "- El campo 'fecha desde del servicio a facturar' <FchServDesde> no puede ser posterior al campo 'fecha hasta del servicio a facturar' <FchServHasta>.\n"
    + "- Solicita al usuario que corrija las fechas asegurando que FchServDesde sea anterior o igual a FchServHasta.\n"
    + "- Sugiere valores coherentes basados en la fecha del comprobante.\n"
    + "- No reintentes la operación hasta que se corrijan las fechas."

  const Instructions10033: string :=
    "Acción para código 10033 (FchServHasta obligatorio):\n"
    + "- El campo FchServHasta es obligatorio cuando se informa FchServDesde y/o FchVtoPago.\n"
    + "- Solicita al usuario que proporcione la fecha de fin del servicio (FchServHasta) en formato AAAAMMDD.\n"
    + "- Verifica que FchServHasta sea igual o posterior a FchServDesde.\n"
    + "- Recuerda que para servicios, las tres fechas son obligatorias: FchServDesde, FchServHasta y FchVtoPago.\n"
    + "- No reintentes la operación hasta que se proporcione un valor válido para FchServHasta.\n"
    + "- El LLM no debe asumir esa información"

  const Instructions10035: string :=
    "Acción para código 10035 (FchVtoPago obligatorio):\n"
    + "- El campo 'fecha de vencimiento para el pago' <FchVtoPago> es obligatorio si se informa 'fecha desde del servicio a facturar' <FchServDesde> y/o 'fecha hasta del servicio a facturar' <FchServHasta>.\n"
    + "- Solicita al usuario que proporcione la fecha de vencimiento de pago (FchVtoPago) en formato AAAAMMDD.\n"
    + "- Verifica que FchVtoPago sea posterior a la fecha del comprobante (CbteFch).\n"
    + "- Recuerda que para servicios, las tres fechas son obligatorias.\n"
    + "- No reintentes la operación hasta que se proporcione un valor válido para FchVtoPago.\n"
    + "- El LLM no debe asumir esa información"

  const Instructions10036: string :=
    "Acción para código 10036 (FchVtoPago anterior a fecha del comprobante):\n"
    + "- El campo 'fecha de vencimiento para el pago' <FchVtoPago> no puede ser anterior a la fecha del comprobante.\n"
    + "- Solicita al usuario que corrija la fecha de vencimiento de pago asegurando que sea igual o posterior a la fecha del comprobante (CbteFch).\n"
    + "- Sugiere una fecha de vencimiento razonable (por ejemplo, 15 o 30 días después de la fecha del comprobante).\n"
    + "- No reintentes la operación hasta que se corrija la fecha de vencimiento.\n"
    + "- El LLM no debe asumir esa información"

  const Instructions10049: string :=
    "Acción para código 10049 (fechas de servicio obligatorias):\n"
    + "- Verifica el campo 'Concepto'. Si es 2 (Servicios) o 3 (Productos y Servicios),\n"
    + "- Si el usuario no especifica, se le debe preguntar por esta información. El LLM no debe asumir esa información\n"
    + "- Solicita y valida estos campos: FchServDesde, FchServHasta, FchVtoPago (formato AAAAMMDD).\n"
    + "- Validaciones mínimas: FchServHasta >= FchServDesde y FchVtoPago > CbteFch.\n"
    + "- Si el comprobante es solo de productos, ofrece cambiar 'Concepto' a 1 (Productos).\n"
    + "- No reintentes la operación hasta completar/corregir estos campos.\n"
    + "- El LLM no debe asumir esa información"

  const InstructionsZod: string :=
    "Acción para error de validación de esquema (Zod):\n"
    + "- Informa exactamente qué campos faltan o son inválidos según el esquema.\n"
    + "- Solicita al usuario proporcionar valores válidos, respetando tipos y formatos.\n"
    + "- No intentes llamar a AFIP hasta que la validación local pase sin errores."

  /** The entries of the table in the order the server registers them. */
  const ShippedEntries: seq<(ErrorCode, string)> := [
    (NumCode(10004), Instructions10004),
    (NumCode(10007), Instructions10007),
    (NumCode(10016), Instructions10016),
    (NumCode(10031), Instructions10031),
    (NumCode(10032), Instructions10032),
    (NumCode(10033), Instructions10033),
    (NumCode(10035), Instructions10035),
    (NumCode(10036), Instructions10036),
    (NumCode(10049), Instructions10049),
    (ZodValidation, InstructionsZod)
  ]

  /** Setting each entry in turn: a later entry for the same code overwrites an earlier one. */
  function Applied(table: map<ErrorCode, string>, entries: seq<(ErrorCode, string)>): map<ErrorCode, string>
    decreases |entries|
  {
    if entries == [] then table
    else Applied(table, entries[..|entries| - 1])[entries[|entries| - 1].0 := entries[|entries| - 1].1]
  }

  /** The shipped table: ten codes, each with its text. */
  function ShippedTable(): (t: map<ErrorCode, string>)
    ensures forall i :: 0 <= i < |ShippedEntries| ==>
      ShippedEntries[i].0 in t && t[ShippedEntries[i].0] == ShippedEntries[i].1
  {
    ShippedCodesDistinct();
    forall i | 0 <= i < |ShippedEntries|
      ensures ShippedEntries[i].0 in Applied(map[], ShippedEntries)
      ensures Applied(map[], ShippedEntries)[ShippedEntries[i].0] == ShippedEntries[i].1
    {
      AppliedLastWins(map[], ShippedEntries, i);
    }
    Applied(map[], ShippedEntries)
  }

  /** The codes of the shipped entries, in order. */
  const ShippedCodes: seq<ErrorCode> := [
    NumCode(10004), NumCode(10007), NumCode(10016), NumCode(10031), NumCode(10032),
    NumCode(10033), NumCode(10035), NumCode(10036), NumCode(10049), ZodValidation
  ]

  /** No code is registered twice in the shipped entries. */
  lemma ShippedCodesDistinct()
    ensures forall i, j :: 0 <= i < j < |ShippedEntries| ==> ShippedEntries[i].0 != ShippedEntries[j].0
  {
    EntriesHaveShippedCodes();
    CodesDistinct();
  }

  /** The table's entries carry the codes of `ShippedCodes`, in the same order. */
  lemma EntriesHaveShippedCodes()
    ensures |ShippedEntries| == |ShippedCodes|
    ensures forall k :: 0 <= k < |ShippedEntries| ==> ShippedEntries[k].0 == ShippedCodes[k]
  {
  }

  /** No code appears twice in `ShippedCodes`. */
  lemma CodesDistinct()
    ensures forall i, j :: 0 <= i < j < |ShippedCodes| ==> ShippedCodes[i] != ShippedCodes[j]
  {
  }

  /** The keys after a batch are the keys before plus the batch's codes. */
  lemma {:induction false} AppliedKeys(table: map<ErrorCode, string>, entries: seq<(ErrorCode, string)>)
    ensures Applied(table, entries).Keys == table.Keys + set e | e in entries :: e.0
    decreases |entries|
  {
    if entries != [] {
      var init := entries[..|entries| - 1];
      AppliedKeys(table, init);
      assert entries == init + [entries[|entries| - 1]];
      assert (set e | e in entries :: e.0) == (set e | e in init :: e.0) + {entries[|entries| - 1].0};
    }
  }

  /**
   * After a batch, a code holds the text of its last entry in the batch,
   * and a code the batch does not mention holds what it held before.
   */
  lemma {:induction false} AppliedLastWins(table: map<ErrorCode, string>, entries: seq<(ErrorCode, string)>, i: nat)
    requires i < |entries|
    requires forall j :: i < j < |entries| ==> entries[j].0 != entries[i].0
    ensures entries[i].0 in Applied(table, entries)
    ensures Applied(table, entries)[entries[i].0] == entries[i].1
    decreases |entries|
  {
    var last := |entries| - 1;
    if i < last {
      assert entries[..last][i] == entries[i];
      AppliedLastWins(table, entries[..last], i);
    }
  }

  lemma {:induction false} AppliedKeepsOthers(table: map<ErrorCode, string>, entries: seq<(ErrorCode, string)>, code: ErrorCode)
    requires forall j :: 0 <= j < |entries| ==> entries[j].0 != code
    ensures (code in Applied(table, entries)) == (code in table)
    ensures code in table ==> Applied(table, entries)[code] == table[code]
    decreases |entries|
  {
    if entries != [] {
      AppliedKeepsOthers(table, entries[..|entries| - 1], code);
    }
  }

  /**
   * The instruction table the processor reads. It starts as the shipped
   * table; registering overwrites one entry or a batch of entries.
   */
  class InstructionMap {
    var table: map<ErrorCode, string>

    constructor()
      ensures table == ShippedTable()
    {
      table := ShippedTable();
    }

    /** `registerErrorInstructions`: set or overwrite the text for one code. */
    method Register(code: ErrorCode, text: string)
      modifies this
      ensures table == old(table)[code := text]
    {
      table := table[code := text];
    }

    /** `registerErrorInstructionsBatch`: set the entries in order. */
    method RegisterBatch(entries: seq<(ErrorCode, string)>)
      modifies this
      ensures table == Applied(old(table), entries)
    {
      var i := 0;
      while i < |entries|
        invariant 0 <= i <= |entries|
        invariant table == Applied(old(table), entries[..i])
      {
        var (k, v) := entries[i];
        assert entries[..i + 1][..i] == entries[..i];
        table := table[k := v];
        i := i + 1;
      }
      assert entries[..|entries|] == entries;
    }

    /** `processAfipError` against the current table. */
    function Process(err: Value): ProcessedToolError
      reads this
    {
      ProcessAfipError(err, table)
    }
  }

  // ---------------------------------------------------------------------
  // The processor
  // ---------------------------------------------------------------------

  /**
   * `toStringSafe`: a string as it is, an `Error` by its message (the
   * fallback text when empty), anything else as its JSON text, which is
   * absent for `undefined`.
   */
  function ToStringSafe(v: Value): (r: Option<string>)
    ensures v.Str? ==> r == Some(v.s)
    ensures v.Obj? && v.kind.ErrorObject? ==>
      r == Some(if v.kind.message == "" then UnknownError else v.kind.message)
    ensures !v.Str? && !(v.Obj? && v.kind.ErrorObject?) ==> r == Json.Stringify(v)
    ensures r.None? <==> v.Undefined?
  {
    if v.Str? then Some(v.s)
    else if v.Obj? && v.kind.ErrorObject? then
      Some(if v.kind.message == "" then UnknownError else v.kind.message)
    else Json.Stringify(v)
  }

  /** The length of the run of digits starting at `i`. */
  function DigitRun(s: string, i: nat): (m: nat)
    ensures i + m <= |s| || (i >= |s| && m == 0)
    ensures forall k :: i <= k < i + m ==> Text.IsDigit(s[k])
    ensures i + m < |s| ==> !Text.IsDigit(s[i + m])
    decreases |s| - i
  {
    if i < |s| && Text.IsDigit(s[i]) then 1 + DigitRun(s, i + 1) else 0
  }

  /** The regular expression `\((\d{3,6})\)` matched at position `i`, with `m` digits. */
  predicate CodePatternAt(s: string, i: int, m: int)
  {
    && 0 <= i && 3 <= m <= 6
    && i + m + 1 < |s|
    && s[i] == '('
    && (forall k :: i + 1 <= k <= i + m ==> Text.IsDigit(s[k]))
    && s[i + m + 1] == ')'
  }

  /** The code a match at `i` captures, if there is one. */
  function MatchAt(s: string, i: nat): (r: Option<nat>)
    ensures r.Some? ==> exists m :: CodePatternAt(s, i, m)
  {
    if i < |s| && s[i] == '(' then
      var m := DigitRun(s, i + 1);
      if 3 <= m <= 6 && i + m + 1 < |s| && s[i + m + 1] == ')' then
        assert CodePatternAt(s, i, m);
        Some(Text.Value(s[i + 1..i + 1 + m]))
      else None
    else None
  }

  /** A match of the pattern at `i` is found there, whichever `m` it has, with the code its digits spell. */
  lemma MatchAtComplete(s: string, i: nat, m: nat)
    requires CodePatternAt(s, i, m)
    ensures MatchAt(s, i) == Some(Text.Value(s[i + 1..i + 1 + m]))
  {
    var run := DigitRun(s, i + 1);
    assert run == m;
  }

  /** The leftmost match at `i` or after it. */
  function FirstMatchFrom(s: string, i: nat): (r: Option<nat>)
    ensures r.None? ==> forall j :: i <= j < |s| ==> MatchAt(s, j).None?
    ensures r.Some? ==> exists j :: i <= j < |s| && MatchAt(s, j) == r && forall k :: i <= k < j ==> MatchAt(s, k).None?
    decreases |s| - i
  {
    if i >= |s| then None
    else if MatchAt(s, i).Some? then MatchAt(s, i)
    else
      var r := FirstMatchFrom(s, i + 1);
      // the position passed over, stated in the shape of the ensures' inner quantifier
      assert forall k :: i <= k < i + 1 ==> MatchAt(s, k).None?;
      r
  }

  /** `parseNumericCodeFromMessage`: the code of the leftmost `(ddd)` to `(dddddd)` group. */
  function ParseNumericCode(message: string): Option<nat>
  {
    FirstMatchFrom(message, 0)
  }

  /** The parser agrees with the regular expression: no code when nothing matches... */
  lemma ParseNumericCodeNone(message: string)
    requires ParseNumericCode(message).None?
    ensures forall i, m :: !CodePatternAt(message, i, m)
  {
    forall i, m | CodePatternAt(message, i, m) ensures false {
      MatchAtComplete(message, i, m);
    }
  }

  /** ...and otherwise the digits of the leftmost match. */
  lemma ParseNumericCodeLeftmost(message: string)
    requires ParseNumericCode(message).Some?
    ensures exists i, m ::
      && CodePatternAt(message, i, m)
      && ParseNumericCode(message).value == Text.Value(message[i + 1..i + 1 + m])
      && forall j, m' :: j < i ==> !CodePatternAt(message, j, m')
  {
    var r := FirstMatchFrom(message, 0);
    var i :| 0 <= i < |message| && MatchAt(message, i) == r && forall k :: 0 <= k < i ==> MatchAt(message, k).None?;
    var m :| CodePatternAt(message, i, m);
    MatchAtComplete(message, i, m);
    NoPatternBefore(message, i);
  }

  /** No match anywhere before `i` means no occurrence of the pattern before `i`. */
  lemma NoPatternBefore(message: string, i: nat)
    requires forall k :: 0 <= k < i ==> MatchAt(message, k).None?
    ensures forall j, m :: j < i ==> !CodePatternAt(message, j, m)
  {
    forall j, m | j < i ensures !CodePatternAt(message, j, m) {
      if CodePatternAt(message, j, m) {
        MatchAtComplete(message, j, m);
      }
    }
  }

  /** A value `typeof` reports as string or number, as an error code. */
  function CodeOf(v: Value): Option<ErrorCode>
  {
    match v
    case Num(n) => Some(NumCode(n))
    case Str(s) => Some(StrCode(s))
    case _ => None
  }

  /** The code an object carries at its own level, in the order the properties are checked after `details`. */
  function AlternativeCode(obj: Value): Option<ErrorCode>
  {
    if CodeOf(Get(obj, "errCode")).Some? then CodeOf(Get(obj, "errCode"))
    else if Get(obj, "statusCode").Num? then Some(NumCode(Get(obj, "statusCode").n))
    else None
  }

  /** Whether `c` is the code of `obj` itself (its `code`, `errCode` or numeric `statusCode`). */
  predicate OwnCode(obj: Value, c: ErrorCode)
  {
    CodeOf(Get(obj, "code")) == Some(c) || AlternativeCode(obj) == Some(c)
  }

  /**
   * Whether `obj` and the objects reached from it by following `details`
   * up to `k` times are all truthy objects, so that the lookup descends
   * that far.
   */
  predicate OnChain(obj: Value, k: nat)
    decreases k
  {
    Truthy(obj) && IsObjectType(obj) && (k == 0 || OnChain(Get(obj, "details"), k - 1))
  }

  /** Whether `c` is an own code of `obj` or of an object reached by following `details` `k` times. */
  predicate FoundAt(obj: Value, k: nat, c: ErrorCode)
    decreases k
  {
    if k == 0 then OwnCode(obj, c) else FoundAt(Get(obj, "details"), k - 1, c)
  }

  /**
   * `extractCodeFromObject`: `code`, else a code nested under a truthy
   * `details`, else `errCode`, else a numeric `statusCode`; nothing for a
   * non-object and nothing below depth 2.
   */
  function ExtractCode(obj: Value, depth: nat): (r: Option<ErrorCode>)
    ensures r.Some? ==> Truthy(obj) && IsObjectType(obj) && depth <= 2
    ensures r.Some? ==> exists k: nat :: k <= 2 - depth && OnChain(obj, k) && FoundAt(obj, k, r.value)
    ensures Truthy(obj) && IsObjectType(obj) && depth <= 2 && CodeOf(Get(obj, "code")).Some? ==>
      r == CodeOf(Get(obj, "code"))
    decreases 3 - depth
  {
    if !Truthy(obj) || !IsObjectType(obj) || depth > 2 then None
    else if CodeOf(Get(obj, "code")).Some? then
      assert FoundAt(obj, 0, CodeOf(Get(obj, "code")).value);
      CodeOf(Get(obj, "code"))
    else
      var nested := if Truthy(Get(obj, "details")) then ExtractCode(Get(obj, "details"), depth + 1) else None;
      if nested.Some? then
        var k: nat :| k <= 2 - (depth + 1) && OnChain(Get(obj, "details"), k) && FoundAt(Get(obj, "details"), k, nested.value);
        assert OnChain(obj, k + 1) && FoundAt(obj, k + 1, nested.value);
        nested
      else
        assert AlternativeCode(obj).Some? ==> OnChain(obj, 0) && FoundAt(obj, 0, AlternativeCode(obj).value);
        AlternativeCode(obj)
  }

  /**
   * A code nested under a truthy `details` wins over the object's own
   * `errCode` and `statusCode`.
   */
  lemma NestedCodeWins(obj: Value, depth: nat)
    requires Truthy(obj) && IsObjectType(obj) && depth <= 2
    requires CodeOf(Get(obj, "code")).None?
    requires Truthy(Get(obj, "details")) && ExtractCode(Get(obj, "details"), depth + 1).Some?
    ensures ExtractCode(obj, depth) == ExtractCode(Get(obj, "details"), depth + 1)
  {
  }

  /**
   * Without a `code` of its own or below `details`, an object's `errCode`
   * (string or number) wins over its numeric `statusCode`, which is read
   * only when `errCode` is neither.
   */
  lemma ErrCodeBeforeStatusCode(obj: Value, depth: nat)
    requires Truthy(obj) && IsObjectType(obj) && depth <= 2
    requires CodeOf(Get(obj, "code")).None?
    requires !Truthy(Get(obj, "details")) || ExtractCode(Get(obj, "details"), depth + 1).None?
    ensures CodeOf(Get(obj, "errCode")).Some? ==> ExtractCode(obj, depth) == CodeOf(Get(obj, "errCode"))
    ensures CodeOf(Get(obj, "errCode")).None? && Get(obj, "statusCode").Num? ==>
      ExtractCode(obj, depth) == Some(NumCode(Get(obj, "statusCode").n))
    ensures CodeOf(Get(obj, "errCode")).None? && !Get(obj, "statusCode").Num? ==> ExtractCode(obj, depth).None?
  {
  }

  /**
   * The lookup finds nothing exactly when no object on the `details`
   * chain it walks (at most `2 - depth` steps, through truthy objects
   * only) carries a `code`, `errCode` or numeric `statusCode`.
   */
  lemma {:induction false} ExtractCodeComplete(obj: Value, depth: nat)
    ensures ExtractCode(obj, depth).Some? <==>
      exists k: nat, c :: k <= 2 - depth && OnChain(obj, k) && FoundAt(obj, k, c)
    decreases 3 - depth
  {
    var r := ExtractCode(obj, depth);
    if r.Some? {
      var k: nat :| k <= 2 - depth && OnChain(obj, k) && FoundAt(obj, k, r.value);
      assert exists k: nat, c :: k <= 2 - depth && OnChain(obj, k) && FoundAt(obj, k, c);
    } else {
      forall k: nat, c | k <= 2 - depth && OnChain(obj, k) ensures !FoundAt(obj, k, c) {
        if k > 0 {
          assert OnChain(Get(obj, "details"), k - 1);
          ExtractCodeComplete(Get(obj, "details"), depth + 1);
        }
      }
    }
  }

  /** `isZodValidationError`: an object named `ZodError`, or one with an `issues` array. */
  predicate IsZodValidationError(v: Value)
  {
    Truthy(v) && IsObjectType(v) && (Get(v, "name") == Str("ZodError") || Get(v, "issues").Arr?)
  }

  /** `!code`: no code, or the falsy codes `0` and `""`. */
  predicate Falsy(code: Option<ErrorCode>)
  {
    code == None || code == Some(NumCode(0)) || code == Some(StrCode(""))
  }

  /** The code the processor looks up: from the object, else (when that is falsy) from the message. */
  function FindCode(err: Value, message: string): Option<ErrorCode>
  {
    var fromObject := if IsObjectType(err) && !err.Null? then ExtractCode(err, 0) else None;
    if Falsy(fromObject) && ParseNumericCode(message).Some? then Some(NumCode(ParseNumericCode(message).value))
    else fromObject
  }

  /** The instructions for a code: its entry, else the Zod text for a Zod-like error, else the default. */
  function ChooseInstructions(code: Option<ErrorCode>, err: Value, table: map<ErrorCode, string>): string
  {
    if code.Some? && code.value in table then table[code.value]
    else if IsZodValidationError(err) && ZodValidation in table then table[ZodValidation]
    else DefaultInstructions
  }

  /**
   * `processAfipError`. It never fails: an `undefined` error, whose
   * message `toStringSafe` cannot produce, takes the `catch` branch.
   */
  function ProcessAfipError(err: Value, table: map<ErrorCode, string>): (r: ProcessedToolError)
    ensures r.details == err
    ensures r.error != ""
    ensures err.Str? && err.s != "" ==> r.error == err.s
    ensures err.Obj? && err.kind.ErrorObject? ==>
      r.error == (if err.kind.message == "" then UnknownError else err.kind.message)
    ensures r.instructions in table.Values || r.instructions == DefaultInstructions
  {
    match ToStringSafe(err)
    case None => ProcessedToolError(UnknownError, err, DefaultInstructions)
    case Some(message) =>
      ProcessedToolError(if message == "" then UnknownError else message, err,
        ChooseInstructions(FindCode(err, message), err, table))
  }

  // ---------------------------------------------------------------------
  // Properties of the processor
  // ---------------------------------------------------------------------

  /**
   * The fallback text replaces exactly the empty string: every other
   * value that has a text at all reads as non-empty, so `message ||
   * "Error desconocido"` only ever fires on `""`.
   */
  lemma EmptyTextOnlyFromEmptyString(v: Value)
    ensures ToStringSafe(v) == Some("") <==> v == Str("")
  {
    if !v.Str? && !(v.Obj? && v.kind.ErrorObject?) && !v.Undefined? {
      StringifyNonEmpty(v);
    }
  }

  /** The JSON text of a defined value is never empty. */
  lemma StringifyNonEmpty(v: Value)
    requires !v.Undefined?
    ensures Json.Stringify(v).Some? && Json.Stringify(v).value != ""
  {
    match v
    case Num(n) =>
      assert Json.Stringify(v).value == NumberToString(n);
    case _ =>
  }

  /**
   * An `Error` with no own `message` property reads as its message: the
   * processor reports it with the same text as the bare message string.
   */
  lemma ErrorReadsAsItsMessage(err: Value, table: map<ErrorCode, string>)
    requires err.Obj? && err.kind.ErrorObject? && IndexOf(err.props, "message").None?
    ensures ProcessAfipError(err, table).error == ProcessAfipError(Get(err, "message"), table).error
  {
  }

  /** A code the object carries itself decides the instructions whenever the table has it; the message is not read. */
  lemma ObjectCodeWins(err: Value, table: map<ErrorCode, string>, c: ErrorCode)
    requires err.Obj? && CodeOf(Get(err, "code")) == Some(c) && !Falsy(Some(c)) && c in table
    ensures ProcessAfipError(err, table).instructions == table[c]
  {
  }

  /**
   * When the object carries no usable code, the first `(ddd)` group of
   * the message decides, if the table has that code.
   */
  lemma MessageCodeFallback(err: Value, table: map<ErrorCode, string>, message: string, n: nat)
    requires ToStringSafe(err) == Some(message)
    requires !(IsObjectType(err) && !err.Null?) || Falsy(ExtractCode(err, 0))
    requires ParseNumericCode(message) == Some(n) && NumCode(n) in table
    ensures ProcessAfipError(err, table).instructions == table[NumCode(n)]
  {
  }

  /** A Zod-like error with no known code gets the Zod text, when the table has one. */
  lemma ZodErrorsGetZodText(err: Value, table: map<ErrorCode, string>)
    requires IsZodValidationError(err) && ZodValidation in table
    requires ToStringSafe(err).Some?
    requires var code := FindCode(err, ToStringSafe(err).value); code.None? || code.value !in table
    ensures ProcessAfipError(err, table).instructions == table[ZodValidation]
  {
  }

  /** Without a known code and outside Zod, the default text is used. */
  lemma UnknownErrorsGetDefault(err: Value, table: map<ErrorCode, string>)
    requires !IsZodValidationError(err) && ToStringSafe(err).Some?
    requires var code := FindCode(err, ToStringSafe(err).value); code.None? || code.value !in table
    ensures ProcessAfipError(err, table).instructions == DefaultInstructions
  {
  }

  /** After registering a code, an error message citing it gets the registered text. */
  lemma RegisteredCodeIsUsed(table: map<ErrorCode, string>, n: nat, text: string, message: string)
    requires ParseNumericCode(message) == Some(n)
    ensures ProcessAfipError(Str(message), table[NumCode(n) := text]).instructions == text
  {
  }

  /** A concrete message: AFIP's code 10049 in parentheses selects the service-dates instructions. */
  lemma ServiceDatesMessage()
    ensures ProcessAfipError(Str("(10049) Falta FchServDesde"), ShippedTable()).instructions == Instructions10049
  {
    ShippedHas10049();
    ServiceDatesMessageWith(ShippedTable());
  }

  /** The same message, with any table that holds the service-dates instructions under code 10049. */
  lemma ServiceDatesMessageWith(table: map<ErrorCode, string>)
    requires NumCode(10049) in table && table[NumCode(10049)] == Instructions10049
    ensures ProcessAfipError(Str("(10049) Falta FchServDesde"), table).instructions == Instructions10049
  {
    var s := "(10049) Falta FchServDesde";
    ServiceDatesCode(s);
    MessageCodeFallback(Str(s), table, s, 10049);
  }

  /** The shipped table holds the service-dates instructions under code 10049. */
  lemma ShippedHas10049()
    ensures NumCode(10049) in ShippedTable() && ShippedTable()[NumCode(10049)] == Instructions10049
  {
    assert ShippedEntries[8] == (NumCode(10049), Instructions10049);
  }

  lemma ServiceDatesCode(s: string)
    requires s == "(10049) Falta FchServDesde"
    ensures ParseNumericCode(s) == Some(10049)
  {
    assert s[0] == '(' && s[6] == ')';
    assert s[1] == '1' && s[2] == '0' && s[3] == '0' && s[4] == '4' && s[5] == '9';
    assert s[1..6] == "10049";
    assert CodePatternAt(s, 0, 5);
    MatchAtComplete(s, 0, 5);
    ValueOf10049();
  }

  lemma ValueOf10049()
    ensures Text.AllDigits("10049") && Text.Value("10049") == 10049
  {
    assert Text.Value("1") == 1 by { Text.ValueSnoc("", '1'); assert "" + ['1'] == "1"; }
    assert Text.Value("10") == 10 by { Text.ValueSnoc("1", '0'); assert "1" + ['0'] == "10"; }
    assert Text.Value("100") == 100 by { Text.ValueSnoc("10", '0'); assert "10" + ['0'] == "100"; }
    assert Text.Value("1004") == 1004 by { Text.ValueSnoc("100", '4'); assert "100" + ['4'] == "1004"; }
    assert Text.Value("10049") == 10049 by { Text.ValueSnoc("1004", '9'); assert "1004" + ['9'] == "10049"; }
  }

  /** An `undefined` error reaches the `catch` branch: the fallback message and the default text. */
  lemma UndefinedErrorFallsBack(table: map<ErrorCode, string>)
    ensures ProcessAfipError(Undefined, table) == ProcessedToolError(UnknownError, Undefined, DefaultInstructions)
  {
  }
}
