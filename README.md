# ArcaMCP core, modelled in Dafny

ArcaMCP is an MCP server that gives a language model tools for the
Argentine tax agency's (AFIP/ARCA) electronic-billing services. This
project models the tools' deterministic core in Dafny and proves what
that core promises:

- **The date-range voucher locator** (`get_invoices_in_date_range`,
  module `InvoicesInDateRange`). The remote ledger only answers "last
  voucher number" and "voucher by number". The locator recovers every
  voucher dated inside `[fechaDesde, fechaHasta]`:
  - it takes the latest number, falling back to a backward scan from 100;
  - it classifies the range as historical or recent;
  - it runs one or two binary searches for the boundaries;
  - it applies the safety cap;
  - it fetches the span in batches;
  - it aggregates the vouchers found.

  The ledger is a function from voucher number to a probe outcome (threw,
  or answered with an optional record). The searches and the batch loop
  are `while` loops with their invariants. Each method is proved against
  `Collect`, a plain left-to-right scan. On a ledger whose dates do not
  decrease, the answer is exactly that scan. On any ledger, every
  reported voucher is an in-range record, the list strictly increases
  and the counters add up.
  `InvoicesInDateRangeSchema` models the argument schema and its defaults.
- **The error processor** (`ErrorProcessor`):
  - the shipped instruction table;
  - the `InstructionMap` class, whose `Register` and `RegisterBatch` overwrite entries;
  - `toStringSafe`;
  - the `(ddd…)` message-code parser, proved against the regular expression;
  - `extractCodeFromObject`, with its depth bound;
  - the Zod heuristic;
  - `processAfipError`.
- **QR generation:**
  - `GenerateQRSchema` covers the number conversions, the `CbteFch`
    normalisation, each field's refinement, the cross-field rules and
    the alias preprocessing. The preprocessing is a method filling a
    copied property list one field at a time.
  - `GenerateQR` covers the payload, the QR text and the responses.
  - `QrSchema` holds the QR data schema's field predicates.
  - The QR text is built from JSON (`Json`, after RFC 8259), UTF-8
    bytes (`Utf8`), Base64 (`Base64`, after section 4 of RFC 4648) and
    `encodeURIComponent` (`Uri`, after section 2.1 of RFC 3986). Each has
    a decoder and a round-trip lemma, so reading the QR text back gives
    exactly the payload's JSON.
- **The PDF tool:**
  - `PdfHelpers` covers the date formatters, zero padding, HTML escaping and item rows.
  - `CreatePdf` covers:
    - the voucher type names and letters;
    - picking which wrapper of the reply holds the voucher;
    - the normalisation of the voucher's fields, done in place as a method;
    - the gating of the recipient lookup;
    - the template's date formatting and padding;
    - the split/join placeholder replacement loop.
  - `CreatePdfSchema` models `CreatePDFInputSchema`, the input schema
    `CreatePDFTool.schemas.ts` exports. `CreatePDFTool.ts` imports and
    parses a `CreatePDFSchema` from that file, which exports no such name,
    so the tool as written does not reach this schema. The four-field
    `CreatePDFSchema` of `src/tools/schemas.ts` belongs to the legacy tool
    and is not modelled.
- **Mis Comprobantes** (`MisComprobantesSchema`, `MisComprobantes`): the
  input schema and the `filters`/`data` objects. `BuildFilters` assigns
  each filter conditionally, in the source's order. The automation
  service is a parameter.
- **Voucher creation** (`VoucherCleaning`). `create_voucher` and
  `create_next_voucher` delete their empty optional lists before the
  service is called; `create_voucher` also sets its `fullResponse` flag
  aside.

Shared modules:

- `JsValue`: JavaScript values, with objects as ordered property lists.
- `Validation`: Zod's basic checks, each returning the value or its issues.
- `Text`: digits, decimal values, string order, trimming, padding, split and join.
- `ToolResponses`: the tools' error response.
- `Wrappers`: `Option` and `Result`.

Dates are compared as JavaScript compares strings (`Text.Less`).
`Text.LexOrderIsNumericOrder` proves that, for digit strings of equal
length, this order is numeric order. That is why `YYYYMMDD` comparisons
in the locator are date comparisons.

## Model

| member | source | states |
|---|---|---|
| InvoicesInDateRangeSchema.Parse | src/tools/GetInvoicesInDateRangeTool/GetInvoicesInDateRangeTool.schemas.ts:3-30 | Accepted iff `PtoVta`, `CbteTipo` ≥ 1, both dates exactly 8 digits, `batchSize` absent or in 1..50, `maxVouchers` absent or in 1..1000, `includeDetails` absent or boolean; defaults 20, 500 and false; no `fechaDesde <= fechaHasta` check; refusals carry issues |
| InvoicesInDateRange.Execute | src/tools/GetInvoicesInDateRangeTool/GetInvoicesInDateRangeTool.ts:20-405 | Invalid arguments give the validation failure with all counters 0. Valid ones give an answer whose counters add up and which is sound on any ledger: a refusal only from the cap and before any batch; otherwise a strictly increasing list of in-range records. On an ordered ledger the answer is exactly the plain scan of 1..n; with n = 0 it is the empty result |
| InvoicesInDateRange.Run | src/tools/GetInvoicesInDateRangeTool/GetInvoicesInDateRangeTool.ts:44-78 | Step 1: the latest number from the ledger, or from the backward search with the fixed +10 query estimate (line 65); the empty result when it is 0; soundness and exactness carried through |
| InvoicesInDateRange.FindLastVoucherBySearch | src/tools/GetInvoicesInDateRangeTool/GetInvoicesInDateRangeTool.ts:448-474 | The counting-down loop from 100 returns the largest number ≤ 100 whose record has a date, 0 if none (`LastReadable`) |
| InvoicesInDateRange.LastReadable | src/tools/GetInvoicesInDateRangeTool/GetInvoicesInDateRangeTool.ts:448-474 | The reference for the backward scan; never above its start |
| InvoicesInDateRange.LastReadableIsLast | src/tools/GetInvoicesInDateRangeTool/GetInvoicesInDateRangeTool.ts:453-471 | `LastReadable(k)` is 0 or a dated number, and no number above it up to `k` is dated |
| InvoicesInDateRange.Locate | src/tools/GetInvoicesInDateRangeTool/GetInvoicesInDateRangeTool.ts:80-369 | Steps 2–6 for n ≥ 1, on any ledger: the span `primer..ultimo` found lies in 1..n and its first number is dated on or after `fechaDesde`; an empty span (line 245) gives the empty result with no batch; a non-empty one is refused iff it exceeds `maxVouchers`, with the cap message, and is otherwise reported as `Collect(primer..ultimo)` with one batch query per number. Search queries are bounded by 1 + 2·⌈log⌉; totalQueries = spent + search + batch; sound, and exact on ordered ledgers |
| InvoicesInDateRange.LocateSpan | src/tools/GetInvoicesInDateRangeTool/GetInvoicesInDateRangeTool.ts:84-238 | Historical iff the last voucher is dated and `fechaHasta < fecha` (lines 98–99); recent ⇒ `ultimoEnRango = ultimoNro`; `1 ≤ primer ≤ n+1`, `ultimo ≤ n`; the boundaries found are dated and in range; on ordered dates, number i is kept iff `primer ≤ i ≤ ultimo` |
| InvoicesInDateRange.FindLastOnOrBefore | src/tools/GetInvoicesInDateRangeTool/GetInvoicesInDateRangeTool.ts:117-153 | Search A terminates (a failed or dateless probe still moves `inicio` up), uses at most Bits(n) counted queries, returns 0 or a dated number with date ≤ `fechaHasta`; on ordered dates, `i ≤ last` iff `date(i) ≤ fechaHasta` |
| InvoicesInDateRange.FindFirstOnOrAfter | src/tools/GetInvoicesInDateRangeTool/GetInvoicesInDateRangeTool.ts:155-238 | Search B and the recent search: returns `none` (ultimoNro+1) or a dated number with date ≥ `fechaDesde`, in at most Bits(hi) counted queries; on ordered dates, `first ≤ i` iff `date(i) ≥ fechaDesde` |
| InvoicesInDateRange.BoundariesExact | src/tools/GetInvoicesInDateRangeTool/GetInvoicesInDateRangeTool.ts:107-238 | On ordered dates the two strategies' boundaries delimit exactly the in-range numbers |
| InvoicesInDateRange.BitsMonotone | src/tools/GetInvoicesInDateRangeTool/GetInvoicesInDateRangeTool.ts:120-153 | The halving bound on search probes grows with the window |
| InvoicesInDateRange.Deliver | src/tools/GetInvoicesInDateRangeTool/GetInvoicesInDateRangeTool.ts:259-369 | Steps 4–6 on any ledger: refused iff the span `ultimo-primer+1` exceeds `maxVouchers`, with the cap message naming both numbers and `batchQueries` 0; otherwise the report of exactly `Collect(primer..ultimo)`, with `batchQueries` equal to the span; queries add up; sound, and exact on ordered ledgers |
| InvoicesInDateRange.FetchInBatches | src/tools/GetInvoicesInDateRangeTool/GetInvoicesInDateRangeTool.ts:275-329 | The batch loop returns exactly `Collect(first..last)`, `totalAmount` is its sum, the dispatched count is the span size, and the batches, each of size 1..batchSize, flatten to `first..last` in order |
| InvoicesInDateRange.BuildBatch | src/tools/GetInvoicesInDateRangeTool/GetInvoicesInDateRangeTool.ts:279-285 | The inner loop builds requests `i .. min(i+batchSize, last+1)-1`, paired in order with their answers |
| InvoicesInDateRange.ProcessBatch | src/tools/GetInvoicesInDateRangeTool/GetInvoicesInDateRangeTool.ts:293-322 | Processing one batch's answers gives the incoming list followed by `KeptAll` of the answers (failed, dateless and out-of-range answers skipped, in order), and the total stays the sum of the list |
| InvoicesInDateRange.FetchBatch | src/tools/GetInvoicesInDateRangeTool/GetInvoicesInDateRangeTool.ts:275-322 | One pass of the outer loop covers `min(i+batchSize, ultimo+1) - i` ≥ 1 numbers from `i`, dispatched as `i..` in order, and extends the scan from `first..i-1` to `first..i+size-1` with the total kept as its sum; every batch so far still holds 1..batchSize numbers |
| InvoicesInDateRange.KeptAllIsScan | src/tools/GetInvoicesInDateRangeTool/GetInvoicesInDateRangeTool.ts:293-322 | A batch of the answers for `i, i+1, …` yields exactly the plain scan of those numbers, appended to the scan before `i` |
| InvoicesInDateRange.ScanAfterBatch | src/tools/GetInvoicesInDateRangeTool/GetInvoicesInDateRangeTool.ts:293-322 | The list after a batch of answers for `i..hi-1` (`hi = i + |lote|`) is the plain scan of `first..hi-1` |
| InvoicesInDateRange.FlattenRange | src/tools/GetInvoicesInDateRangeTool/GetInvoicesInDateRangeTool.ts:275 | Appending the next batch of consecutive numbers extends the flattened range |
| InvoicesInDateRange.RangeIndex | src/tools/GetInvoicesInDateRangeTool/GetInvoicesInDateRangeTool.ts:275-285 | The numbers `lo..hi-1` in order: `hi-lo` of them, the k-th being `lo+k` |
| InvoicesInDateRange.RangeAppend | src/tools/GetInvoicesInDateRangeTool/GetInvoicesInDateRangeTool.ts:275 | Consecutive ranges concatenate |
| InvoicesInDateRange.FlattenSnoc | src/tools/GetInvoicesInDateRangeTool/GetInvoicesInDateRangeTool.ts:275-329 | Flattening one more batch appends it |
| InvoicesInDateRange.TotalSnoc | src/tools/GetInvoicesInDateRangeTool/GetInvoicesInDateRangeTool.ts:319-320 | Pushing a summary adds its amount to the total |
| InvoicesInDateRange.CollectSound | src/tools/GetInvoicesInDateRangeTool/GetInvoicesInDateRangeTool.ts:293-322 | The scan of `lo..hi-1` (`SoundScan`) holds at most `hi-lo` summaries, strictly increasing by number, each drawn from a dated in-range record in that window and copied field by field |
| InvoicesInDateRange.SoundThroughKept | src/tools/GetInvoicesInDateRangeTool/GetInvoicesInDateRangeTool.ts:293-322 | Appending the kept summary of number `j` to a sound scan of `lo..j-1` gives a sound scan of `lo..j` |
| InvoicesInDateRange.CollectStep | src/tools/GetInvoicesInDateRangeTool/GetInvoicesInDateRangeTool.ts:301-320 | The scan grows by the next number's record, if kept |
| InvoicesInDateRange.CollectSplit | src/tools/GetInvoicesInDateRangeTool/GetInvoicesInDateRangeTool.ts:275-329 | The scan splits at any point, so batch boundaries do not matter |
| InvoicesInDateRange.CollectNone | src/tools/GetInvoicesInDateRangeTool/GetInvoicesInDateRangeTool.ts:302-308 | A scan over numbers none of which is kept is empty |
| InvoicesInDateRange.CollectAll | src/tools/GetInvoicesInDateRangeTool/GetInvoicesInDateRangeTool.ts:302-320 | A scan over numbers all of which are kept has one summary per number |
| InvoicesInDateRange.CollectComplete | src/tools/GetInvoicesInDateRangeTool/GetInvoicesInDateRangeTool.ts:302-320 | Every kept number in the scanned range appears in the scan |
| InvoicesInDateRange.SpanSound | src/tools/GetInvoicesInDateRangeTool/GetInvoicesInDateRangeTool.ts:275-329 | The scan of a span inside 1..n is increasing, drawn from 1..n, at most one per number |
| InvoicesInDateRange.DrawnWiden | src/tools/GetInvoicesInDateRangeTool/GetInvoicesInDateRangeTool.ts:293-322 | Being drawn from a sub-range implies being drawn from the enclosing range |
| InvoicesInDateRange.SpanIsAll | src/tools/GetInvoicesInDateRangeTool/GetInvoicesInDateRangeTool.ts:245-329 | When the kept numbers are exactly `primer..ultimo`, the full scan is the span's scan, with `ultimo-primer+1` entries |
| InvoicesInDateRange.SortKeepsIncreasing | src/tools/GetInvoicesInDateRangeTool/GetInvoicesInDateRangeTool.ts:332 | Any by-number sort of an already strictly increasing list (a permutation, ordered by number) is that list |
| InvoicesInDateRange.ShapeAll | src/tools/GetInvoicesInDateRangeTool/GetInvoicesInDateRangeTool.ts:354-362 | One entry per voucher; `docTipo`/`docNro` dropped unless `includeDetails` |
| InvoicesInDateRange.EmptyIsSound | src/tools/GetInvoicesInDateRangeTool/GetInvoicesInDateRangeTool.ts:69-78 | The empty answer, with no batch dispatched, is a sound report of nothing |
| InvoicesInDateRange.CreateEmptyResult | src/tools/GetInvoicesInDateRangeTool/GetInvoicesInDateRangeTool.ts:408-446 | The general report for an empty voucher list: count 0, total 0, range `{0,0}`, with or without details |
| InvoicesInDateRange.FormatDate | src/tools/GetInvoicesInDateRangeTool/GetInvoicesInDateRangeTool.ts:476-482 | An 8-character date becomes `DD/MM/YYYY` with its slices in place; other lengths are unchanged |
| Text.LexOrderIsNumericOrder | src/tools/GetInvoicesInDateRangeTool/GetInvoicesInDateRangeTool.ts:308 | For digit strings of equal length, JavaScript's `<` is numeric `<` (and equality is equal value) |
| Text.LeadingDigitDecides | src/tools/GetInvoicesInDateRangeTool/GetInvoicesInDateRangeTool.ts:308 | A smaller leading digit gives the smaller value |
| ErrorProcessor.ShippedTable | src/utils/errorProcessor.mapping.ts:9-126 | The shipped table holds each of the ten codes with its text |
| ErrorProcessor.ShippedCodesDistinct | src/utils/errorProcessor.mapping.ts:9-126 | No code is registered twice among the shipped entries, so no entry overwrites another |
| ErrorProcessor.InstructionMap.constructor | src/utils/errorProcessor.mapping.ts:9-126 | The map starts as the shipped table |
| ErrorProcessor.InstructionMap.Register | src/utils/errorProcessor/errorProcessor.ts:31-33 | Sets or overwrites exactly one entry |
| ErrorProcessor.InstructionMap.RegisterBatch | src/utils/errorProcessor/errorProcessor.ts:36-40 | The loop sets the entries in order (`Applied`) |
| ErrorProcessor.AppliedKeys | src/utils/errorProcessor/errorProcessor.ts:36-40 | After a batch the keys are the old keys plus the batch's codes |
| ErrorProcessor.AppliedLastWins | src/utils/errorProcessor/errorProcessor.ts:36-40 | A duplicated code ends with its last entry's text |
| ErrorProcessor.AppliedKeepsOthers | src/utils/errorProcessor/errorProcessor.ts:36-40 | Codes the batch does not mention are untouched |
| ErrorProcessor.ToStringSafe | src/utils/errorProcessor/errorProcessor.ts:43-51 | Strings unchanged; an `Error` as its message, or "Error desconocido" when the message is empty; every other value as its JSON text; nothing (JSON `undefined`) exactly for `undefined` |
| ErrorProcessor.DigitRun | src/utils/errorProcessor/errorProcessor.ts:55 | The maximal run of digits from a position |
| ErrorProcessor.MatchAt | src/utils/errorProcessor/errorProcessor.ts:55-56 | A code found at a position is a match of `\((\d{3,6})\)` there |
| ErrorProcessor.MatchAtComplete | src/utils/errorProcessor/errorProcessor.ts:55-56 | Every match of the pattern at a position is found, with the value of its digits |
| ErrorProcessor.FirstMatchFrom | src/utils/errorProcessor/errorProcessor.ts:55-57 | Nothing when no position matches; otherwise the code at the first matching position |
| ErrorProcessor.ParseNumericCodeNone | src/utils/errorProcessor/errorProcessor.ts:54-58 | No code iff the message has no match anywhere |
| ErrorProcessor.ParseNumericCodeLeftmost | src/utils/errorProcessor/errorProcessor.ts:54-58 | A code is the value of the leftmost match's digits |
| ErrorProcessor.ExtractCode | src/utils/errorProcessor/errorProcessor.ts:64-85 | A code only from a truthy object within depth 2, found at `details` nesting ≤ 2 − depth through truthy objects only; a top-level string/number `code` always wins |
| ErrorProcessor.NestedCodeWins | src/utils/errorProcessor/errorProcessor.ts:72-76 | Without its own `code`, a code found under a truthy `details` is the answer, ahead of the object's `errCode` and `statusCode` |
| ErrorProcessor.ErrCodeBeforeStatusCode | src/utils/errorProcessor/errorProcessor.ts:78-84 | Without a `code` of its own or below `details`: a string or number `errCode` is the answer, else a numeric `statusCode`, else nothing |
| ErrorProcessor.ExtractCodeComplete | src/utils/errorProcessor/errorProcessor.ts:64-85 | The lookup finds a code exactly when some object on the `details` chain it walks (≤ 2 − depth steps, truthy objects only) carries a `code`, `errCode` or numeric `statusCode` |
| ErrorProcessor.ProcessAfipError | src/utils/errorProcessor/errorProcessor.ts:103-143 | Never fails: `details` is the input unchanged, `error` is never empty, is the string itself for a non-empty string and an `Error`'s message ("Error desconocido" when empty), and the instructions are a table text or the default |
| ErrorProcessor.EmptyTextOnlyFromEmptyString | src/utils/errorProcessor/errorProcessor.ts:43-51 | The text is empty exactly for the empty string, so `processAfipError` falls back to "Error desconocido" for a thrown `""` and for nothing else that has a text |
| ErrorProcessor.StringifyNonEmpty | src/utils/errorProcessor/errorProcessor.ts:46-47 | `JSON.stringify` of any defined value is a non-empty text |
| ErrorProcessor.ErrorReadsAsItsMessage | src/utils/errorProcessor/errorProcessor.ts:43-51 | An `Error` is reported with the same `error` text as its bare message string |
| ErrorProcessor.ObjectCodeWins | src/utils/errorProcessor/errorProcessor.ts:109-120 | A truthy own code in the table decides the instructions |
| ErrorProcessor.MessageCodeFallback | src/utils/errorProcessor/errorProcessor.ts:112-120 | With no (or a falsy) object code, the message's first `(ddd)` code decides |
| ErrorProcessor.ZodErrorsGetZodText | src/utils/errorProcessor/errorProcessor.ts:88-125 | A Zod-like error without a known code gets `ZOD_VALIDATION`'s text |
| ErrorProcessor.UnknownErrorsGetDefault | src/utils/errorProcessor/errorProcessor.ts:119-128 | Otherwise the default instructions |
| ErrorProcessor.RegisteredCodeIsUsed | src/utils/errorProcessor/errorProcessor.ts:31-33 | After registering a code, a message citing it gets the new text |
| ErrorProcessor.ServiceDatesMessage | src/utils/errorProcessor.mapping.ts:104-116 | `"(10049) Falta FchServDesde"` selects the 10049 instructions from the shipped table |
| ErrorProcessor.ServiceDatesMessageWith | src/utils/errorProcessor.mapping.ts:104-116 | The same message selects code 10049's text from any table holding it |
| ErrorProcessor.ShippedHas10049 | src/utils/errorProcessor.mapping.ts:104-116 | The shipped table maps code 10049 to the service-dates instructions |
| ErrorProcessor.ServiceDatesCode | src/utils/errorProcessor/errorProcessor.ts:54-58 | That message parses to code 10049 |
| ErrorProcessor.ValueOf10049 | src/utils/errorProcessor/errorProcessor.ts:56 | `Number("10049")` is 10049 |
| ErrorProcessor.UndefinedErrorFallsBack | src/utils/errorProcessor/errorProcessor.ts:135-142 | An `undefined` error takes the `catch` branch: fallback message, default instructions |
| GenerateQRSchema.StringToNumber | src/tools/GenerateQRTool/GenerateQRTool.schemas.ts:5-13 | `Number(s)` on a trimmed digit run is its value |
| GenerateQRSchema.ToNumber | src/tools/GenerateQRTool/GenerateQRTool.schemas.ts:5-13 | Numbers as they are, non-number non-strings NaN |
| GenerateQRSchema.ToInt | src/tools/GenerateQRTool/GenerateQRTool.schemas.ts:15-18 | Truncation is the identity on the model's integers |
| GenerateQRSchema.ToNumberReadsText | src/tools/GenerateQRTool/GenerateQRTool.schemas.ts:5-13 | `toNumber(String(n)) == n` |
| GenerateQRSchema.TrimDigits | src/tools/GenerateQRTool/GenerateQRTool.schemas.ts:7-9 | A digit run has nothing to trim |
| GenerateQRSchema.NegativeText | src/tools/GenerateQRTool/GenerateQRTool.schemas.ts:5-13 | `"-d…"` reads as the negated value |
| GenerateQRSchema.NormalizeCbteFchCases | src/tools/GenerateQRTool/GenerateQRTool.schemas.ts:23-30 | Eight digits kept, `YYYY-MM-DD` to `YYYYMMDD`, anything else trimmed |
| GenerateQRSchema.NormalizeCbteFchAccepts | src/tools/GenerateQRTool/GenerateQRTool.schemas.ts:23-30 | The result is eight digits iff the trimmed input was eight digits or an ISO date |
| GenerateQRSchema.NormalizeCbteFchIdempotent | src/tools/GenerateQRTool/GenerateQRTool.schemas.ts:23-30 | Normalising twice equals normalising once |
| GenerateQRSchema.NumberOrString | src/tools/GenerateQRTool/GenerateQRTool.schemas.ts:82 | The union accepts exactly numbers and strings, unchanged |
| GenerateQRSchema.Refined | src/tools/GenerateQRTool/GenerateQRTool.schemas.ts:171-211 | A refinement passes iff it raised no issue, and then keeps the value |
| GenerateQRSchema.VerField | src/tools/GenerateQRTool/GenerateQRTool.schemas.ts:70 | `Ver` accepted iff absent or 1; the value is 1 |
| GenerateQRSchema.CbteFchField | src/tools/GenerateQRTool/GenerateQRTool.schemas.ts:73-79 | Accepted iff a string that is eight digits or an ISO date once trimmed; the value is the normalised date, eight digits |
| GenerateQRSchema.CuitField | src/tools/GenerateQRTool/GenerateQRTool.schemas.ts:82-87 | Accepted iff it converts to an integer in [10^10, 10^11 − 1]; the value is that integer |
| GenerateQRSchema.CuitDigits | src/tools/GenerateQRTool/GenerateQRTool.schemas.ts:82-87 | `String(n)` has 11 digits iff n lies in that range |
| GenerateQRSchema.CuitDigitsOf | src/tools/GenerateQRTool/GenerateQRTool.schemas.ts:82-87 | The same for a converted number, NaN excluded |
| GenerateQRSchema.CountField | src/tools/GenerateQRTool/GenerateQRTool.schemas.ts:90-114 | `PtoVta`, `CbteTipo`, `CbteNro`: accepted iff an integer in 1..max (99999, 999, 99999999) |
| GenerateQRSchema.AmountField | src/tools/GenerateQRTool/GenerateQRTool.schemas.ts:117-139 | `ImpTotal` ≥ 0, `MonCotiz` > 0 |
| GenerateQRSchema.MonIdField | src/tools/GenerateQRTool/GenerateQRTool.schemas.ts:125-131 | Trimmed and upper-cased (ASCII letters only, see "## Left out"), then exactly three letters A–Z |
| GenerateQRSchema.DocTipoField | src/tools/GenerateQRTool/GenerateQRTool.schemas.ts:142-149 | Absent, or an integer among 80, 96, 99 |
| GenerateQRSchema.DocNroField | src/tools/GenerateQRTool/GenerateQRTool.schemas.ts:151-158 | Absent, or an integer ≥ 0 |
| GenerateQRSchema.TipoCodAutField | src/tools/GenerateQRTool/GenerateQRTool.schemas.ts:161-164 | `E` or `A`, `E` by default |
| GenerateQRSchema.CodAutField | src/tools/GenerateQRTool/GenerateQRTool.schemas.ts:165 | A number or string, as its text |
| GenerateQRSchema.ParseFields | src/tools/GenerateQRTool/GenerateQRTool.schemas.ts:69-166 | Accepted iff an object whose every field passes; then every field's guarantees hold and the values are the converted fields |
| GenerateQRSchema.FieldIssues | src/tools/GenerateQRTool/GenerateQRTool.schemas.ts:69-166 | A refused object always reports at least one issue |
| GenerateQRSchema.AcceptedFields | src/tools/GenerateQRTool/GenerateQRTool.schemas.ts:69-166 | Accepted fields convert to values meeting every field's guarantee, with the identifying fields copied through |
| GenerateQRSchema.CrossFieldIssues | src/tools/GenerateQRTool/GenerateQRTool.schemas.ts:171-211 | No issue iff the `DocTipo`/`DocNro` pair is both-or-neither, `CodAut` is 14 digits, and `PES` has rate 1 |
| GenerateQRSchema.Validate | src/tools/GenerateQRTool/GenerateQRTool.schemas.ts:69-211 | Zod 3 semantics: a non-object, or an object with an aborting field (wrong type, union, enumeration or literal), gets the field issues alone; otherwise the issues are the field issues followed by the cross-field issues on the converted fields, so a failed `.refine` still lets the rules run; the field issues are always a prefix; accepted iff fields and rules pass |
| GenerateQRSchema.ConvertedAgrees | src/tools/GenerateQRTool/GenerateQRTool.schemas.ts:69-166 | An object whose fields all pass has no aborting field, and its accepted fields are the converted fields the rules look at |
| GenerateQRSchema.AbortsRefused | src/tools/GenerateQRTool/GenerateQRTool.schemas.ts:69-166 | A non-object or an object with an aborting field is refused by the object schema |
| GenerateQRSchema.ValidateAgrees | src/tools/GenerateQRTool/GenerateQRTool.schemas.ts:69-166 | Without an aborting field, the object schema accepts the converted fields iff there are no field issues, and otherwise fails with exactly those issues |
| GenerateQRSchema.AliasTargetsDistinct | src/tools/GenerateQRTool/GenerateQRTool.schemas.ts:41-63 | The twelve alias copies fill twelve different fields, none of them the date |
| GenerateQRSchema.AliasPreprocess | src/tools/GenerateQRTool/GenerateQRTool.schemas.ts:33-66 | Non-objects and falsy input unchanged; otherwise every key kept, date from a truthy `fecha` without dashes, each undefined field from its defined alias, all other properties unchanged |
| GenerateQRSchema.CopyAliases | src/tools/GenerateQRTool/GenerateQRTool.schemas.ts:41-63 | The twelve alias copies, in table order: each canonical field ends with its own value or, when undefined, its alias's; the date and every non-canonical property unchanged; no key lost |
| GenerateQRSchema.FillDate | src/tools/GenerateQRTool/GenerateQRTool.schemas.ts:38-40 | The date step alone, nothing else changed |
| GenerateQRSchema.CopyAlias | src/tools/GenerateQRTool/GenerateQRTool.schemas.ts:41-63 | One copy: an undefined canonical field takes the alias, nothing else changes |
| GenerateQRSchema.AdoptedSoFar | src/tools/GenerateQRTool/GenerateQRTool.schemas.ts:41-63 | After copy i, copies 0..i all hold |
| GenerateQR.FormatDateRoundTrip | src/tools/GenerateQRTool/GenerateQRTool.ts:44-51 | `fecha` of an 8-digit date is an ISO date that normalises back to it |
| GenerateQR.FormatDateShape | src/tools/GenerateQRTool/GenerateQRTool.ts:44-48 | The slices [0,4), [4,6), [6,8) are in place |
| GenerateQR.PayloadFields | src/tools/GenerateQRTool/GenerateQRTool.ts:49-64 | Each payload field holds the validated field it renames; `codAut` is its text; the document pair is there when both parts are, else `undefined` |
| GenerateQR.HeadFields | src/tools/GenerateQRTool/GenerateQRTool.ts:50-58 | The fields before the document pair |
| GenerateQR.LaterFields | src/tools/GenerateQRTool/GenerateQRTool.ts:59-63 | The document pair and the last two fields |
| GenerateQR.TailFields | src/tools/GenerateQRTool/GenerateQRTool.ts:62-63 | `tipoCodAut` and `codAut` |
| GenerateQR.DocFields | src/tools/GenerateQRTool/GenerateQRTool.ts:59-61 | The pair, or nothing |
| GenerateQR.PayloadHead | src/tools/GenerateQRTool/GenerateQRTool.ts:50-54 | `ver` to `tipoCmp` |
| GenerateQR.PayloadHeadRest | src/tools/GenerateQRTool/GenerateQRTool.ts:55-58 | `nroCmp` to `ctz` |
| GenerateQR.HeadLacksLaterKeys | src/tools/GenerateQRTool/GenerateQRTool.ts:49-58 | The head names none of the later keys |
| GenerateQR.PayloadTail | src/tools/GenerateQRTool/GenerateQRTool.ts:59-63 | The tail's fields; the pair names neither tail key |
| GenerateQR.PayloadDocPairIff | src/tools/GenerateQRTool/GenerateQRTool.ts:59-61 | `tipoDocRec` and `nroDocRec` are keys iff both `DocTipo` and `DocNro` are defined |
| GenerateQR.DocPairKeys | src/tools/GenerateQRTool/GenerateQRTool.ts:59-61 | The same for any date and code |
| GenerateQR.PayloadConforms | src/utils/qr/qr.schema.ts:4-72 | A payload from valid fields meets the QR data schema once `codAut` is written as a number (no leading zero, document number positive) |
| GenerateQR.ConformsWith | src/utils/qr/qr.schema.ts:4-72 | The same for any ISO date |
| GenerateQR.HeadConforms | src/utils/qr/qr.schema.ts:5-45 | The head fields meet their predicates |
| GenerateQR.LaterConforms | src/utils/qr/qr.schema.ts:47-71 | The later fields meet theirs |
| GenerateQR.CodAutInRange | src/utils/qr/qr.schema.ts:66-71 | Fourteen digits without a leading zero lie in [10^13, 10^14 − 1] |
| GenerateQR.QrText | src/tools/GenerateQRTool/GenerateQRTool.ts:67-71 | The text starts with `https://www.arca.gob.ar/fe/qr/?p=` |
| GenerateQR.QrTextRoundTrip | src/tools/GenerateQRTool/GenerateQRTool.ts:67-71 | Percent-decoding, Base64-decoding and UTF-8-decoding the `p` parameter give back exactly the payload's JSON |
| GenerateQR.CatchResponse | src/tools/GenerateQRTool/GenerateQRTool.ts:104-126 | Always an error with the hint; a Zod error gives "Parámetros inválidos" with its issues |
| GenerateQR.RespondErrorIff | src/tools/GenerateQRTool/GenerateQRTool.ts:104-125 | The response is an error iff validation failed, and then lists the issues |
| GenerateQR.RespondGenerated | src/tools/GenerateQRTool/GenerateQRTool.ts:86-103 | Success carries the message, the payload of the validated fields, and a QR text reading back as its JSON |
| GenerateQR.Execute | src/tools/GenerateQRTool/GenerateQRTool.ts:38-127 | The response is the answer to the validated, alias-preprocessed arguments (non-object input validated as it is); a generated response's QR text reads back as its payload's JSON; a failed QR render does not change the response |
| QrSchema.CuitIsElevenDigits | src/utils/qr/qr.schema.ts:12-17 | `cuit` in range iff a number written with 11 digits |
| QrSchema.CodAutIsFourteenDigits | src/utils/qr/qr.schema.ts:66-71 | `codAut` in range iff written with 14 digits |
| Json.HexDigit | src/tools/GenerateQRTool/GenerateQRTool.ts:67 | A `\u00XX` hex digit and its value |
| Json.HexValue | src/tools/GenerateQRTool/GenerateQRTool.ts:67 | A hex digit's value is below 16 |
| Json.EscapeChar | src/tools/GenerateQRTool/GenerateQRTool.ts:67 | Every character has a non-empty escape |
| Json.UnescapeChar | src/tools/GenerateQRTool/GenerateQRTool.ts:67 | An escaped character reads back as itself |
| Json.EscapeRoundTrip | src/tools/GenerateQRTool/GenerateQRTool.ts:67 | A string literal's content reads back as the string |
| Json.EscapedHasNoBareQuote | src/tools/GenerateQRTool/GenerateQRTool.ts:67 | Every quote in the content is escaped |
| Json.Present | src/tools/GenerateQRTool/GenerateQRTool.ts:67 | Dropping absent members never lengthens the list |
| Json.Stringify | src/tools/GenerateQRTool/GenerateQRTool.ts:67 | No text exactly for `undefined` |
| Json.StringifySkipsUndefined | src/tools/GenerateQRTool/GenerateQRTool.ts:59-67 | An `undefined` property leaves the JSON as if absent |
| Json.PresentSnocNone | src/tools/GenerateQRTool/GenerateQRTool.ts:67 | An absent last member adds nothing |
| Utf8.EncodeChar | src/tools/GenerateQRTool/GenerateQRTool.ts:68 | One to four bytes, by code-point range |
| Utf8.DecodeChar | src/tools/GenerateQRTool/GenerateQRTool.ts:68 | A decoded character consumes 1–4 bytes that are there |
| Utf8.Bits2 | src/tools/GenerateQRTool/GenerateQRTool.ts:68 | A two-byte sequence encodes 0x80..0x7FF |
| Utf8.Bits3 | src/tools/GenerateQRTool/GenerateQRTool.ts:68 | A three-byte sequence encodes below 0x10000 |
| Utf8.Bits4 | src/tools/GenerateQRTool/GenerateQRTool.ts:68 | A four-byte sequence encodes below 0x200000 |
| Utf8.DecodeEncodeChar | src/tools/GenerateQRTool/GenerateQRTool.ts:68 | Decoding an encoded character gives it and its width |
| Utf8.DecodeEncode | src/tools/GenerateQRTool/GenerateQRTool.ts:68 | Decoding an encoded text gives it back |
| Utf8.EncodeAppend | src/tools/GenerateQRTool/GenerateQRTool.ts:68 | Encoding distributes over concatenation |
| Utf8.EncodeAscii | src/tools/GenerateQRTool/GenerateQRTool.ts:68 | ASCII encodes to one byte per character |
| Base64.Char | src/tools/GenerateQRTool/GenerateQRTool.ts:68 | Each six-bit value has its alphabet character |
| Base64.Index | src/tools/GenerateQRTool/GenerateQRTool.ts:68 | Each alphabet character has a six-bit value |
| Base64.EncodeGroup | src/tools/GenerateQRTool/GenerateQRTool.ts:68 | Three bytes give four characters |
| Base64.EncodeTail | src/tools/GenerateQRTool/GenerateQRTool.ts:68 | One or two final bytes give four padded characters |
| Base64.Encode | src/tools/GenerateQRTool/GenerateQRTool.ts:68 | The length is ⌈n/3⌉·4 |
| Base64.DecodeGroup | src/tools/GenerateQRTool/GenerateQRTool.ts:68 | Four characters give three bytes |
| Base64.DecodeEncodeGroup | src/tools/GenerateQRTool/GenerateQRTool.ts:68 | A group round-trips |
| Base64.DecodeEncodeTail | src/tools/GenerateQRTool/GenerateQRTool.ts:68 | A padded tail round-trips |
| Base64.DecodeEncode | src/tools/GenerateQRTool/GenerateQRTool.ts:68 | Every byte string round-trips |
| Base64.EncodeAlphabet | src/tools/GenerateQRTool/GenerateQRTool.ts:68 | Only alphabet characters, with padding only in the last two places |
| Uri.HexChar | src/tools/GenerateQRTool/GenerateQRTool.ts:69-71 | An upper-case hex digit and its value |
| Uri.HexValue | src/tools/GenerateQRTool/GenerateQRTool.ts:69-71 | A hex digit's value is below 16 |
| Uri.Escapes | src/tools/GenerateQRTool/GenerateQRTool.ts:69-71 | Three characters per escaped byte |
| Uri.BytesOfEscapes | src/tools/GenerateQRTool/GenerateQRTool.ts:69-71 | Escapes read back as their bytes |
| Uri.BytesOfEncode | src/tools/GenerateQRTool/GenerateQRTool.ts:69-71 | An encoded component reads back as the text's UTF-8 bytes |
| Uri.DecodeEncode | src/tools/GenerateQRTool/GenerateQRTool.ts:69-71 | `decodeURIComponent(encodeURIComponent(s)) == s` |
| Uri.EncodeIsSafe | src/tools/GenerateQRTool/GenerateQRTool.ts:69-71 | The encoding holds only unreserved characters, `%` and hex digits |
| Uri.EscapesAreSafe | src/tools/GenerateQRTool/GenerateQRTool.ts:69-71 | The same for escapes |
| PdfHelpers.FormatDateDDMMYYYY | src/tools/CreatePDFTool/CreatePDFTool.helpers.ts:10-17 | "" exactly for a blank date, non-8-digit input unchanged, otherwise `DD/MM/YYYY` |
| PdfHelpers.FormatDateISO | src/tools/CreatePDFTool/CreatePDFTool.helpers.ts:19-26 | The same with `YYYY-MM-DD`, which is the QR tool's date |
| PdfHelpers.DayMonthYearShape | src/tools/CreatePDFTool/CreatePDFTool.helpers.ts:13-16 | Ten characters, the same eight digits read back in order, two slashes added |
| PdfHelpers.IsoShape | src/tools/CreatePDFTool/CreatePDFTool.helpers.ts:22-25 | Ten characters, the same digits, two dashes added |
| PdfHelpers.IsoRoundTrip | src/tools/CreatePDFTool/CreatePDFTool.helpers.ts:19-26 | The QR tool's date normaliser reads the ISO form back as the eight digits |
| PdfHelpers.ZeroPadded | src/tools/CreatePDFTool/CreatePDFTool.helpers.ts:44 | Digits only, the same value, at least the width, exactly the width when the number fits |
| PdfHelpers.DigitsFit | src/tools/CreatePDFTool/CreatePDFTool.helpers.ts:44 | A number below 10^w has at most w digits |
| PdfHelpers.EscapeHtml | src/tools/CreatePDFTool/CreatePDFTool.helpers.ts:48 | The description holds no raw `<` or `>` |
| PdfHelpers.EscapeHtmlCons | src/tools/CreatePDFTool/CreatePDFTool.helpers.ts:48 | The two passes escape character by character |
| PdfHelpers.EscapeHtmlRoundTrip | src/tools/CreatePDFTool/CreatePDFTool.helpers.ts:48 | A description without `&` is recovered from its escaped form |
| PdfHelpers.EscapeHtmlMergesEntity | src/tools/CreatePDFTool/CreatePDFTool.helpers.ts:48 | `<` and a typed `&lt;` print alike |
| PdfHelpers.ItemCode | src/tools/CreatePDFTool/CreatePDFTool.helpers.ts:44 | Row idx's code is idx+1, three digits when below 1000 |
| PdfHelpers.ItemCells | src/tools/CreatePDFTool/CreatePDFTool.helpers.ts:45-55 | Eight cells: the code, then the escaped description, … |
| PdfHelpers.ItemRows | src/tools/CreatePDFTool/CreatePDFTool.helpers.ts:39-58 | One row per item, in order |
| PdfHelpers.RenderItems | src/tools/CreatePDFTool/CreatePDFTool.helpers.ts:35-60 | "" iff there are no items |
| PdfHelpers.RenderItemsRows | src/tools/CreatePDFTool/CreatePDFTool.helpers.ts:39-58 | Item i's row carries code i+1 and the escaped description in cells |
| PdfHelpers.RowContains | src/tools/CreatePDFTool/CreatePDFTool.helpers.ts:45-56 | Every cell appears between `<td>` and `</td>` |
| PdfHelpers.CellsContain | src/tools/CreatePDFTool/CreatePDFTool.helpers.ts:46-54 | The same for the cell lines |
| PdfHelpers.CellsHead | src/tools/CreatePDFTool/CreatePDFTool.helpers.ts:47 | The first cell |
| PdfHelpers.CellsTail | src/tools/CreatePDFTool/CreatePDFTool.helpers.ts:48-54 | The later cells |
| CreatePdf.VoucherTypeName | src/tools/CreatePDFTool/CreatePDFTool.ts:18-31 | The nine codes' names, `Tipo n` otherwise |
| CreatePdf.VoucherTypeLetter | src/tools/CreatePDFTool/CreatePDFTool.ts:33-38 | One of "", A, B, C |
| CreatePdf.NameEndsWithLetter | src/tools/CreatePDFTool/CreatePDFTool.ts:18-38 | A type has a letter iff it has a name, and the name ends with " " and that letter |
| CreatePdf.SelectVoucher | src/tools/CreatePDFTool/CreatePDFTool.ts:181-191 | The raw reply or a truthy wrapper member; `FECompConsResp.ResultGet` first |
| CreatePdf.SelectVoucherUnwraps | src/tools/CreatePDFTool/CreatePDFTool.ts:183-191 | Each of the four reply shapes yields the voucher it wraps |
| CreatePdf.LocateVoucher | src/tools/CreatePDFTool/CreatePDFTool.ts:172-195 | Fails with "No se pudo obtener…" for a falsy reply and "Comprobante no encontrado" for a falsy voucher; otherwise the voucher's fields |
| CreatePdf.Normalize | src/tools/CreatePDFTool/CreatePDFTool.ts:199-217 | The in-place assignments leave every field as `NormalizedField` of the voucher as received and add the nine keys |
| CreatePdf.AssignIdentifiers | src/tools/CreatePDFTool/CreatePDFTool.ts:199-201 | `PtoVta`, `CbteTipo`, `CbteNro ?? CbteDesde ?? request`; nothing else changes |
| CreatePdf.AssignAuthorization | src/tools/CreatePDFTool/CreatePDFTool.ts:203-209 | `CAE` and `CAEFchVto` from their alternative names |
| CreatePdf.AssignCurrency | src/tools/CreatePDFTool/CreatePDFTool.ts:211-214 | `MonId` upper-cased text, default `PES`; `MonCotiz` default 1 |
| CreatePdf.AssignRecipient | src/tools/CreatePDFTool/CreatePDFTool.ts:216-217 | `DocTipo` default 99, `DocNro` default 0 |
| CreatePdf.StepsCompose | src/tools/CreatePDFTool/CreatePDFTool.ts:199-217 | The four steps in sequence give the normalised record |
| CreatePdf.NormalizedKeysAdded | src/tools/CreatePDFTool/CreatePDFTool.ts:199-217 | Together they add exactly the nine keys |
| CreatePdf.NormalizedByField | src/tools/CreatePDFTool/CreatePDFTool.ts:199-217 | The nine fields plus the untouched rest are the whole record |
| CreatePdf.NormalizeKeepsSetFields | src/tools/CreatePDFTool/CreatePDFTool.ts:199-217 | Fields already set are kept (the currency only upper-cased), others untouched, the recipient defaults to 99 and 0 |
| CreatePdf.NormalizeDefaultCurrency | src/tools/CreatePDFTool/CreatePDFTool.ts:211-213 | With no currency the result is `PES` |
| CreatePdf.RecipientLookup | src/tools/CreatePDFTool/CreatePDFTool.ts:252-274 | A query only when not skipped, `docNro` truthy and non-zero, `docTipo ≠ 99`; CUIT (80) directly, DNI (96) through the tax id |
| CreatePdf.FinalConsumerNotLookedUp | src/tools/CreatePDFTool/CreatePDFTool.ts:216-252 | A voucher without a recipient document is never looked up |
| CreatePdf.FormatDate | src/tools/CreatePDFTool/CreatePDFTool.ts:295-301 | Other lengths unchanged; eight characters give `DD/MM/YYYY` slices |
| CreatePdf.FormatDateAgrees | src/tools/CreatePDFTool/CreatePDFTool.ts:295-301 | Agrees with the helper on digits; on `"2024-1-5"` it slices, the helper does not |
| CreatePdf.FormatDateAny | src/tools/CreatePDFTool/CreatePDFTool.ts:304-311 | "" iff blank; texts that are neither 8 digits nor ISO unchanged |
| CreatePdf.FormatDateAnyReadsBothForms | src/tools/CreatePDFTool/CreatePDFTool.ts:304-311 | An 8-digit date and its ISO form display alike, as `DD/MM/YYYY` |
| CreatePdf.PointOfSale | src/tools/CreatePDFTool/CreatePDFTool.ts:392 | Five digits with the number's value |
| CreatePdf.VoucherNumber | src/tools/CreatePDFTool/CreatePDFTool.ts:393 | Eight digits with the number's value |
| CreatePdf.PaddedAgrees | src/tools/CreatePDFTool/CreatePDFTool.ts:392-393 | The padding is the helper's zero padding |
| CreatePdf.Replacements | src/tools/CreatePDFTool/CreatePDFTool.ts:384-423 | The 25 placeholders, each with its text, none empty |
| CreatePdf.PlaceholdersNonEmpty | src/tools/CreatePDFTool/CreatePDFTool.ts:384-423 | No placeholder is empty |
| CreatePdf.FillTemplate | src/tools/CreatePDFTool/CreatePDFTool.ts:425-427 | The loop applies the replacements in order (`ApplyAll`) |
| CreatePdf.ReplaceAllCutsEveryOccurrence | src/tools/CreatePDFTool/CreatePDFTool.ts:426 | split/join cuts at every occurrence: the pieces join back to the text, hold no occurrence, and join with the value |
| CreatePdf.SplitAbsent | src/tools/CreatePDFTool/CreatePDFTool.ts:426 | A text without the placeholder is one piece |
| CreatePdf.ApplyAllAbsent | src/tools/CreatePDFTool/CreatePDFTool.ts:425-427 | A template with no placeholder is unchanged |
| CreatePdf.OrEmpty | src/tools/CreatePDFTool/CreatePDFTool.ts:390-399 | `String(v \|\| "")`: "" for falsy, the string itself |
| CreatePdf.ToolItemCode | src/tools/CreatePDFTool/CreatePDFTool.ts:99 | The given code, else the padded index |
| CreatePdf.ToolItemDescription | src/tools/CreatePDFTool/CreatePDFTool.ts:110 | No raw `<` or `>`; "" when absent |
| ToolResponses.ErrorBody | src/tools/CreatePDFTool/CreatePDFTool.ts:485-502 | An object whose `details` is the error and whose `error` is the message of an `Error`, "Error desconocido" otherwise |
| Text.PadStart | src/tools/CreatePDFTool/CreatePDFTool.ts:392-393 | `padStart`: unchanged when long enough, else exactly the width, the text at the end and the pad before |
| Text.LeadingZerosKeepValue | src/tools/CreatePDFTool/CreatePDFTool.ts:392-393 | Leading zeros do not change the value |
| Text.JoinSplit | src/tools/CreatePDFTool/CreatePDFTool.ts:426 | Split then join with the same separator is the identity |
| Text.SplitPiecesFree | src/tools/CreatePDFTool/CreatePDFTool.ts:426 | No piece contains the separator |
| Text.NatToStringValue | src/tools/CreatePDFTool/CreatePDFTool.ts:392-393 | `String(n)` reads back as n, with no leading zero |
| Text.NatToStringLength | src/tools/GenerateQRTool/GenerateQRTool.schemas.ts:82-87 | `String(n)` has k digits iff 10^(k−1) ≤ n < 10^k |
| Text.TrimIdempotent | src/tools/GenerateQRTool/GenerateQRTool.schemas.ts:23-30 | Trimming twice is trimming once |
| Text.ToUpper | src/tools/GenerateQRTool/GenerateQRTool.schemas.ts:125-131 | Same length; each of `a`–`z` becomes its capital and every other character is kept (ASCII only, see "## Left out") |
| Text.Filter | src/tools/MisComprobantesTool/MisComprobantesTool.schemas.ts:57-58 | Keeps only wanted characters, in order; identity when all are wanted |
| Text.FilterKeepsAll | src/tools/MisComprobantesTool/MisComprobantesTool.schemas.ts:57-58 | No wanted character is dropped |
| Text.FilterAppend | src/tools/MisComprobantesTool/MisComprobantesTool.schemas.ts:57-58 | Filtering distributes over concatenation |
| Text.ReplaceCharRemoves | src/tools/CreatePDFTool/CreatePDFTool.helpers.ts:48 | Replacing `c` by a text without it leaves no `c` |
| CreatePdfSchema.IdAsStringNumber | src/tools/CreatePDFTool/CreatePDFTool.schemas.ts:11-13 | A number becomes digits reading back as the number |
| Validation.IdAsString | src/tools/CreatePDFTool/CreatePDFTool.schemas.ts:11-13 | Accepted iff string or number; the string itself or `String(n)` |
| CreatePdfSchema.DocNroField | src/tools/CreatePDFTool/CreatePDFTool.schemas.ts:107-116 | Undefined → ""; otherwise trimmed text; accepted iff "" or 11 digits |
| CreatePdfSchema.DocNroTrimsBlanks | src/tools/CreatePDFTool/CreatePDFTool.schemas.ts:109 | Blanks around 11 digits are trimmed |
| CreatePdfSchema.DocNroNumber | src/tools/CreatePDFTool/CreatePDFTool.schemas.ts:107-113 | A number is accepted iff it has 11 digits |
| CreatePdfSchema.DocNroUntrimmed | src/tools/CreatePDFTool/CreatePDFTool.schemas.ts:107-113 | A number is checked as written |
| CreatePdfSchema.NumberTextUntrimmed | src/tools/CreatePDFTool/CreatePDFTool.schemas.ts:109 | `String(n)` has no blanks to trim |
| CreatePdfSchema.NonEmptyText | src/tools/CreatePDFTool/CreatePDFTool.schemas.ts:50-55 | `z.string().min(1)` |
| CreatePdfSchema.PositiveField | src/tools/CreatePDFTool/CreatePDFTool.schemas.ts:86-93 | Integers ≥ 1 |
| CreatePdfSchema.AmountField | src/tools/CreatePDFTool/CreatePDFTool.schemas.ts:181-187 | Numbers ≥ 0 |
| CreatePdfSchema.OptionalDate | src/tools/CreatePDFTool/CreatePDFTool.schemas.ts:158-178 | Absent, or exactly eight digits |
| CreatePdfSchema.StartOfActivitiesAsWritten | src/tools/CreatePDFTool/CreatePDFTool.schemas.ts:76-83 | As declared: accepted iff a string of at least 4 characters, the default included |
| CreatePdfSchema.StartOfActivitiesDefaultRefused | src/tools/CreatePDFTool/CreatePDFTool.schemas.ts:76-83 | Leaving the field out is refused with `TooSmall(4)` |
| CreatePdfSchema.StartOfActivities | src/tools/CreatePDFTool/CreatePDFTool.schemas.ts:76-83 | As intended: absent is "", a given value needs 4 characters |
| CreatePdfSchema.StartOfActivitiesAgrees | src/tools/CreatePDFTool/CreatePDFTool.schemas.ts:76-83 | Both readings agree on every given value |
| CreatePdfSchema.ItemField | src/tools/CreatePDFTool/CreatePDFTool.schemas.ts:15-34 | An item's description, quantity (default 1), unit price (default 0) and amount |
| CreatePdfSchema.ItemsFrom | src/tools/CreatePDFTool/CreatePDFTool.schemas.ts:204-208 | Every item checked; when all pass, one parsed item per element, else a non-empty list of issues |
| CreatePdfSchema.ItemsFromAccepted | src/tools/CreatePDFTool/CreatePDFTool.schemas.ts:204-208 | The items check passes iff every element is an accepted item |
| CreatePdfSchema.ItemsFromParsed | src/tools/CreatePDFTool/CreatePDFTool.schemas.ts:204-208 | A passing check holds, at each position, the item `ItemField` parses from that element |
| Validation.EachFrom | src/tools/CreatePDFTool/CreatePDFTool.schemas.ts:204-208 | `z.array(schema)`: when every element passes, the values in order, as many as the elements; otherwise a non-empty list of issues |
| Validation.EachFromSucceeds | src/tools/CreatePDFTool/CreatePDFTool.schemas.ts:204-208 | `z.array(schema)` passes iff every element passes `schema` |
| Validation.EachFromValues | src/tools/CreatePDFTool/CreatePDFTool.schemas.ts:204-208 | A passing `z.array(schema)` holds, at each position, the value `schema` gives that element |
| CreatePdfSchema.ItemsField | src/tools/CreatePDFTool/CreatePDFTool.schemas.ts:204-208 | Absent → []; an array of accepted items |
| CreatePdfSchema.IssuerFields | src/tools/CreatePDFTool/CreatePDFTool.schemas.ts:38-83 | The issuer group: `CbteTipo` ≥ 1, letter in {A,B,C,M}, texts non-empty, `INGRESOS_BRUTOS` default ""; `FECHA_INICIO_ACTIVIDADES` read as intended (`StartOfActivities`: absent is ""), not as written (see "## Findings") |
| CreatePdfSchema.VoucherFields | src/tools/CreatePDFTool/CreatePDFTool.schemas.ts:86-104 | `PtoVta`, `CbteNro` ≥ 1, `CbteFch` 8 digits, `MonId` default `PES` and ≥ 3 characters, `MonCotiz` default 1 and ≥ 0 |
| CreatePdfSchema.RecipientFields | src/tools/CreatePDFTool/CreatePDFTool.schemas.ts:107-134 | Document, name, condition, optional address |
| CreatePdfSchema.PaymentFields | src/tools/CreatePDFTool/CreatePDFTool.schemas.ts:137-178 | Condition in the list, default `Contado`; optional 8-digit dates |
| CreatePdfSchema.TotalsFields | src/tools/CreatePDFTool/CreatePDFTool.schemas.ts:181-187 | Amounts ≥ 0, other taxes default 0 |
| CreatePdfSchema.AuthorizationFields | src/tools/CreatePDFTool/CreatePDFTool.schemas.ts:190-201 | CAE as text, expiry 8 digits, type E or A with default E |
| CreatePdfSchema.Parse | src/tools/CreatePDFTool/CreatePDFTool.schemas.ts:36-209 | Accepted iff an object whose every group passes; then the input is valid. Uses the corrected `FECHA_INICIO_ACTIVIDADES` (see "## Findings"), so an absent value is accepted where the schema as written refuses it |
| CreatePdfSchema.Defaults | src/tools/CreatePDFTool/CreatePDFTool.schemas.ts:99-208 | Left out, the optional fields take `PES`, 1, `Contado`, `E`, [], "" |
| Validation.NumberField | src/tools/CreatePDFTool/CreatePDFTool.schemas.ts:104 | `z.number()` accepts exactly numbers |
| Validation.StringField | src/tools/CreatePDFTool/CreatePDFTool.schemas.ts:69-72 | `z.string()` accepts exactly strings |
| Validation.BooleanField | src/tools/GetInvoicesInDateRangeTool/GetInvoicesInDateRangeTool.schemas.ts:26-29 | `z.boolean()` accepts exactly booleans |
| Validation.InRange | src/tools/GetInvoicesInDateRangeTool/GetInvoicesInDateRangeTool.schemas.ts:14-25 | `.min().max()` passes iff in range |
| Validation.AtLeast | src/tools/GetInvoicesInDateRangeTool/GetInvoicesInDateRangeTool.schemas.ts:4-5 | `.min()` passes iff at least the bound |
| Validation.DateField | src/tools/GetInvoicesInDateRangeTool/GetInvoicesInDateRangeTool.schemas.ts:6-13 | `/^\d{8}$/` accepts exactly 8-digit strings |
| Validation.MinLength | src/tools/CreatePDFTool/CreatePDFTool.schemas.ts:99-103 | `.min(n)` on strings, refusing with `TooSmall(n)` |
| Validation.EnumField | src/tools/CreatePDFTool/CreatePDFTool.schemas.ts:45-49 | `z.enum` accepts exactly the options |
| Validation.OptionalField | src/tools/CreatePDFTool/CreatePDFTool.schemas.ts:158-164 | `.optional()` accepts absence as absent |
| MisComprobantesSchema.DateRangeField | src/tools/MisComprobantesTool/MisComprobantesTool.schemas.ts:11-26 | Accepted iff `DD/MM/YYYY - DD/MM/YYYY` |
| MisComprobantesSchema.FormattedRangeAccepted | src/tools/MisComprobantesTool/MisComprobantesTool.schemas.ts:11-12 | Two 8-digit dates formatted by the PDF helper and joined by " - " are accepted |
| MisComprobantesSchema.PositivesFrom | src/tools/MisComprobantesTool/MisComprobantesTool.schemas.ts:27-38 | Every element a whole number ≥ 1, copied in order |
| MisComprobantesSchema.PositiveList | src/tools/MisComprobantesTool/MisComprobantesTool.schemas.ts:27-38 | `puntosVenta`, `tiposComprobantes`: accepted iff absent or an array of numbers ≥ 1, and then the given numbers in order |
| MisComprobantesSchema.OptionalPositive | src/tools/MisComprobantesTool/MisComprobantesTool.schemas.ts:39-50 | `comprobanteDesde`, `comprobanteHasta`: absent or a number ≥ 1 |
| MisComprobantesSchema.DigitsOf | src/tools/MisComprobantesTool/MisComprobantesTool.schemas.ts:57-58 | Only digits; identity on digit strings |
| MisComprobantesSchema.DigitsOfKeeps | src/tools/MisComprobantesTool/MisComprobantesTool.schemas.ts:57-58 | Keeps every digit; idempotent |
| MisComprobantesSchema.DigitsOfDropsSeparator | src/tools/MisComprobantesTool/MisComprobantesTool.schemas.ts:57-58 | A non-digit separator is dropped and nothing else changes |
| MisComprobantesSchema.NroDocField | src/tools/MisComprobantesTool/MisComprobantesTool.schemas.ts:57-61 | Absent stays absent; a string or number becomes its digits |
| MisComprobantesSchema.CodeField | src/tools/MisComprobantesTool/MisComprobantesTool.schemas.ts:62-68 | Absent, or exactly 14 digits |
| MisComprobantesSchema.ParseObject | src/tools/MisComprobantesTool/MisComprobantesTool.schemas.ts:14-76 | Accepted iff an object with every field valid (`t` in {E, R}, `wait` default true, …); the voucher-number ends are the numbers given |
| MisComprobantesSchema.ParsedFieldsAreGiven | src/tools/MisComprobantesTool/MisComprobantesTool.schemas.ts:27-68 | After a successful parse `tipoDoc` and both lists hold the given numbers, `nroDoc` the digits of `String(nroDoc)` and `codigoAutorizacion` the given text |
| MisComprobantesSchema.Parse | src/tools/MisComprobantesTool/MisComprobantesTool.schemas.ts:14-90 | Accepted iff the object is and, with both ends given, `desde ≤ hasta`; Zod 3 semantics: a non-object or an aborting field (wrong type, enumeration or union) gives the object's issues alone; otherwise the range refinement runs on the given numbers and its issue on `comprobanteDesde` follows the field issues, so a failed `.regex` or `.min` does not hide it |
| MisComprobantesSchema.RangeIssues | src/tools/MisComprobantesTool/MisComprobantesTool.schemas.ts:78-90 | No issue iff the range is not inverted |
| MisComprobantesSchema.AbortsRefused | src/tools/MisComprobantesTool/MisComprobantesTool.schemas.ts:14-76 | A non-object or an object with an aborting field is refused by the object schema |
| MisComprobantesSchema.OneEndAlwaysOrdered | src/tools/MisComprobantesTool/MisComprobantesTool.schemas.ts:80-84 | With one end missing the refinement passes |
| MisComprobantes.IntList | src/tools/MisComprobantesTool/MisComprobantesTool.ts:43-44 | A list of numbers as an array, one element each |
| MisComprobantes.BuildFilters | src/tools/MisComprobantesTool/MisComprobantesTool.ts:40-49 | The nine conditional assignments give exactly `Filters(p)` |
| MisComprobantes.AssignSelection | src/tools/MisComprobantesTool/MisComprobantesTool.ts:41-43 | `t`, `fechaEmision`, `puntosVenta` |
| MisComprobantes.AssignVoucherRange | src/tools/MisComprobantesTool/MisComprobantesTool.ts:44-46 | `tiposComprobantes`, `comprobanteDesde`, `comprobanteHasta` |
| MisComprobantes.AssignDocument | src/tools/MisComprobantesTool/MisComprobantesTool.ts:47-49 | `tipoDoc`, `nroDoc`, `codigoAutorizacion` |
| MisComprobantes.AssignStep | src/tools/MisComprobantesTool/MisComprobantesTool.ts:41-49 | One conditional assignment adds its key iff its field is defined |
| MisComprobantes.FiltersComplete | src/tools/MisComprobantesTool/MisComprobantesTool.ts:40-49 | All nine considered gives the reference dictionary |
| MisComprobantes.FilterEntryKeys | src/tools/MisComprobantesTool/MisComprobantesTool.ts:40-49 | Only the nine keys can appear |
| MisComprobantes.FiltersHoldDefinedFields | src/tools/MisComprobantesTool/MisComprobantesTool.ts:40-49 | A key is in `filters` iff its field is defined, with that field's value |
| MisComprobantes.FiltersNeverEmpty | src/tools/MisComprobantesTool/MisComprobantesTool.ts:41-42 | `t` and `fechaEmision` are always there |
| MisComprobantes.MakeData | src/tools/MisComprobantesTool/MisComprobantesTool.ts:51-56 | `cuit == username ==` the configured CUIT, the password, `filters` iff non-empty |
| MisComprobantes.ErrorText | src/tools/MisComprobantesTool/MisComprobantesTool.ts:80 | An `Error`'s message, else `String(error)` |
| MisComprobantes.ErrorResponse | src/tools/MisComprobantesTool/MisComprobantesTool.ts:72-88 | `isError`, `success: false`, the error text |
| MisComprobantes.ZodError | src/tools/MisComprobantesTool/MisComprobantesTool.ts:24 | The parse error is an `Error` with the rendered issues as message |
| MisComprobantes.Execute | src/tools/MisComprobantesTool/MisComprobantesTool.ts:20-90 | A parse failure gives the error response; otherwise the automation's answer or its error for `mis-comprobantes`, the data and `wait` |
| MisComprobantes.AcceptedCallCarriesFilters | src/tools/MisComprobantesTool/MisComprobantesTool.ts:51-61 | Accepted arguments always send filters with the given `t`, `username` is the CUIT, and `wait` is true unless given false |
| VoucherCleaning.EmptyTestIsEmptyArray | src/tools/CreateVoucherTool/CreateVoucherTool.ts:25-36 | `x && x.length === 0` holds exactly for an empty array |
| VoucherCleaning.RemoveEmptyLists | src/tools/CreateNextVoucherTool/CreateNextVoucherTool.ts:20-32 | The copy and four guarded deletes give exactly `Cleaned(params)` |
| VoucherCleaning.RemovalsAreCleaning | src/tools/CreateVoucherTool/CreateVoucherTool.ts:24-36 | Deleting exactly the present empty lists is cleaning |
| VoucherCleaning.CleanedRemoves | src/tools/CreateVoucherTool/CreateVoucherTool.ts:25-36 | A field is removed iff it is one of the four lists and present but empty |
| VoucherCleaning.CleanedKeeps | src/tools/CreateVoucherTool/CreateVoucherTool.ts:24-36 | Non-empty lists and other fields are unchanged |
| VoucherCleaning.CleanedIdempotent | src/tools/CreateNextVoucherTool/CreateNextVoucherTool.ts:20-32 | Cleaning twice is cleaning once |
| VoucherCleaning.WithoutFullResponse | src/tools/CreateVoucherTool/CreateVoucherTool.ts:21 | `fullResponse` removed, everything else kept |
| VoucherCleaning.FullResponseFlag | src/tools/CreateVoucherTool/CreateVoucherTool.ts:41 | `fullResponse \|\| false`: false when absent or false |
| VoucherCleaning.CreateVoucher | src/tools/CreateVoucherTool/CreateVoucherTool.ts:19-71 | Validation errors and thrown errors become error responses; otherwise the service gets the cleaned data without `fullResponse`, plus the flag |
| VoucherCleaning.SentVoucherIsClean | src/tools/CreateVoucherTool/CreateVoucherTool.ts:21-36 | What is sent has no `fullResponse`, no empty list, and the original values |
| VoucherCleaning.CreateNextVoucher | src/tools/CreateNextVoucherTool/CreateNextVoucherTool.ts:16-64 | The same for the next voucher, without the flag |

## Left out

- The AFIP/ARCA SDK and the automation service are not modelled as transport. They are parameters of the model:
  - the ledger (a function from voucher number to probe outcome);
  - the last-number answer;
  - the voucher-creation services;
  - the automation service.
- The ledger does not change during one call, and the locator assumes `fechaDesde <= fechaHasta` nowhere; the source does not check it either.
- `Promise.all` inside a batch is a sequential, in-order fetch. `Promise.all` keeps result order, and each request catches its own error.
- `Date.now()` and `executionTimeMs` are left out, because timing is not deterministic.
- The `console.*` progress output is left out, because it only logs.
- InvoicesInDateRange.Execute: a probe that throws is not counted in `totalQueries` or `binarySearchQueries`, as in the source, where the counter follows the `await`. The fallback's +10 is the source's fixed estimate, not the real number of probes.
- `vouchers.sort` is not run, because the library's sort is opaque. `SortKeepsIncreasing` shows that any by-number sort (a permutation, ordered by number) returns the already increasing list.
- Floating point is left out: amounts and all numbers are integers.
  - `totalAmount` is an exact integer sum.
  - `toLocaleString("es-AR")` amount formatting and `formatAmountAR` are a parameter `fmt`.
  - The PDF's computed item subtotal and discount maths (CreatePDFTool.ts:369-381) are not modelled.
  - GenerateQRSchema.ToNumber: only integer texts are read; fractional or exponent numeric strings become NaN.
  - GenerateQRSchema.ToInt: `Math.trunc` is the identity on integers.
- Text is sequences of Unicode characters. String length and order are taken per character, not per UTF-16 code unit, so astral characters count once.
- Zod:
  - Each field is modelled as its check returning the value or a non-empty issue list.
  - Zod 3 aborts an object only on a wrong type, a refused union, enumeration or literal. A failed `.refine`, `.regex`, `.int` or `.min` only marks it dirty, and an outer refinement still runs. `Aborts` in `GenerateQRSchema` and `MisComprobantesSchema` names the aborting cases, and `Validate` and `Parse` follow this rule.
  - The exact issue codes and messages Zod would produce are modelled only where a contract states them.
  - `.default()` is taken with Zod 3 semantics: the default is substituted and then checked like any value.
  - The voucher schemas passed to `create_voucher` and `create_next_voucher` are a `Validator` parameter, because they are declarative shapes only.
- The rendering of a `ZodError`'s message is a parameter `render`.
- JSON pretty-printing with indentation 2, inside the MCP `content` text, is not modelled: responses are given as the body value. The compact `JSON.stringify` the QR payload uses is modelled.
- Dictionaries whose key order does not matter to the tool are maps. This applies to `filters`, the cleaned voucher parameters and the normalised voucher, so their key insertion order is not modelled. The QR payload keeps its order as a property list.
- CreatePdf.Normalize is split into four sub-methods, just to keep each proof small; their composition is proved.
- The QR image rendering (`QRCode.toString`, `QRCode.toDataURL`) belongs to the `qrcode` library and is not modelled. `GenerateQR.Execute` takes the render's failure as a flag that does not affect the answer.
- `buildQRDataUrl`, template reading, `findTemplate`, file names and `createPDF` are file, library or SDK I/O and are not modelled. The issuer and recipient texts built from the registry's answers are not modelled either.
- `process.env` (including `SKIP_PADRON`, which becomes the `skipRegistry` flag) and `config` (the CUIT and password, which become a `Config` parameter) are parameters.
- MisComprobantes.BuildFilters assigns `t` and `fechaEmision` unconditionally. The schema makes them required, so after a successful parse the source's `!== undefined` guards always hold, and `data.filters` is always present.
- GenerateQR.PayloadConforms states conformance for the payload with `codAut` written as a number. The payload itself writes it as text, and the input schema accepts a document number of 0, which the QR data schema refuses.
- Text.ToUpper, GenerateQRSchema.MonIdField and CreatePdf's currency normalisation (CreatePdf.AssignCurrency, CreatePdf.Normalize) upper-case only the ASCII letters `a`–`z`. JavaScript's `toUpperCase` uses full Unicode case mapping: it turns "ßa" into "SSA", which `MonId` then accepts, and "usé" into "USÉ". The model keeps such text as it is, so it refuses "ßa" and keeps "usé".
- CreatePdf.LocateVoucher refuses a voucher that is an array. JavaScript would add the normalised fields to the array as properties; that case is not modelled.
- CreatePdfSchema.Parse and CreatePdfSchema.IssuerFields use the corrected `FECHA_INICIO_ACTIVIDADES` field (`StartOfActivities`). The schema as written refuses an absent value (`StartOfActivitiesAsWritten`, see "## Findings"); the model accepts it as "".
- CreatePdf.FormatDate slices any eight-character text, as the source does; it does not check that the text is digits.
- The server wiring, the prompts, the single-call lookup tools, the legacy duplicate tool files and the type-only files hold no logic of this core and are not modelled.

## Findings

| source | as written | input that shows it | evidently intended | confidence | as-written member | corrected member |
|---|---|---|---|---|---|---|
| src/tools/CreatePDFTool/CreatePDFTool.schemas.ts:76-83 | `FECHA_INICIO_ACTIVIDADES` is `.string().min(4).optional().default("")`. Zod substitutes the default and then checks it, and the empty default fails `min(4)` | leaving `FECHA_INICIO_ACTIVIDADES` out gives the issue `TooSmall(4)` | absent is accepted as "", and a given value needs at least 4 characters | not executed | CreatePdfSchema.StartOfActivitiesAsWritten (see CreatePdfSchema.StartOfActivitiesDefaultRefused) | CreatePdfSchema.StartOfActivities |
