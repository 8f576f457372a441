/**
 * The pure helpers of the PDF tool: the two date formatters that turn an
 * eight-digit `YYYYMMDD` date into `DD/MM/YYYY` (shown on the invoice) and
 * `YYYY-MM-DD` (used for the QR), zero padding, the `<`/`>` escaping of
 * item descriptions, and the HTML rows of the invoice items.
 *
 * Amounts are formatted with the `es-AR` locale in the source; that
 * formatting is a parameter `fmt` here.
 */
module PdfHelpers {
  import opened Wrappers
  import Text
  import GenerateQRSchema
  import GenerateQR
  import JsValue

  // ---------------------------------------------------------------------------
  // Dates
  // ---------------------------------------------------------------------------

  /** `!s` for an optional text: absent or empty. */
  predicate Blank(s: Option<string>)
  {
    s.None? || s.value == ""
  }

  /** `${s.slice(6, 8)}/${s.slice(4, 6)}/${s.slice(0, 4)}`. */
  function DayMonthYear(s: string): string
  {
    Text.Slice(s, 6, 8) + "/" + Text.Slice(s, 4, 6) + "/" + Text.Slice(s, 0, 4)
  }

  /** `formatDateDDMMYYYY`: empty for a blank date, unchanged unless eight digits. */
  function FormatDateDDMMYYYY(s: Option<string>): (r: string)
    ensures r == "" <==> Blank(s)
    ensures !Blank(s) && !Text.IsDigits(s.value, 8) ==> r == s.value
    ensures !Blank(s) && Text.IsDigits(s.value, 8) ==> r == DayMonthYear(s.value)
  {
    if Blank(s) then ""
    else if !Text.IsDigits(s.value, 8) then s.value
    else DayMonthYear(s.value)
  }

  /** `formatDateISO`: empty for a blank date, unchanged unless eight digits. */
  function FormatDateISO(s: Option<string>): (r: string)
    ensures r == "" <==> Blank(s)
    ensures !Blank(s) && !Text.IsDigits(s.value, 8) ==> r == s.value
    ensures !Blank(s) && Text.IsDigits(s.value, 8) ==> r == GenerateQR.FormatDate(s.value)
  {
    if Blank(s) then ""
    else if !Text.IsDigits(s.value, 8) then s.value
    else GenerateQR.FormatDate(s.value)
  }

  /** The `DD/MM/YYYY` form of an eight-digit date: ten characters, the same digits, read back in order. */
  lemma DayMonthYearShape(s: string)
    requires Text.IsDigits(s, 8)
    ensures var r := FormatDateDDMMYYYY(Some(s));
      && |r| == 10 && r[2] == '/' && r[5] == '/'
      && r[6..] + r[3..5] + r[..2] == s
      && multiset(r) == multiset(s) + multiset{'/', '/'}
  {
    var r := FormatDateDDMMYYYY(Some(s));
    assert r == s[6..8] + "/" + s[4..6] + "/" + s[..4];
    assert r[6..] == s[..4] && r[3..5] == s[4..6] && r[..2] == s[6..8];
    assert s == s[..4] + s[4..6] + s[6..8];
  }

  /** The `YYYY-MM-DD` form of an eight-digit date: ten characters, the same digits, read back in order. */
  lemma IsoShape(s: string)
    requires Text.IsDigits(s, 8)
    ensures var r := FormatDateISO(Some(s));
      && |r| == 10 && r[4] == '-' && r[7] == '-'
      && r[..4] + r[5..7] + r[8..] == s
      && multiset(r) == multiset(s) + multiset{'-', '-'}
  {
    var r := FormatDateISO(Some(s));
    assert r == s[..4] + "-" + s[4..6] + "-" + s[6..8];
    assert r[..4] == s[..4] && r[5..7] == s[4..6] && r[8..] == s[6..8];
    assert s == s[..4] + s[4..6] + s[6..8];
  }

  /** The ISO form read by the QR tool's date normaliser gives the eight digits back. */
  lemma IsoRoundTrip(s: string)
    requires Text.IsDigits(s, 8)
    ensures GenerateQRSchema.IsIsoDate(FormatDateISO(Some(s)))
    ensures GenerateQRSchema.NormalizeCbteFch(JsValue.Str(FormatDateISO(Some(s)))) == s
  {
    GenerateQR.FormatDateRoundTrip(s);
  }

  // ---------------------------------------------------------------------------
  // Zero padding
  // ---------------------------------------------------------------------------

  /** `String(n).padStart(width, "0")` for a natural number: digits only, same value. */
  function ZeroPadded(n: nat, width: nat): (r: string)
    ensures Text.AllDigits(r) && Text.Value(r) == n
    ensures |r| >= width
    ensures width >= 1 && n < Text.Pow10(width) ==> |r| == width
  {
    PaddedDigits(n, width);
    Text.PadStart(Text.NatToString(n), width, '0')
  }

  /** The padded decimal form: its facts, one call away from the function's body. */
  lemma PaddedDigits(n: nat, width: nat)
    ensures Text.AllDigits(Text.PadStart(Text.NatToString(n), width, '0'))
    ensures Text.Value(Text.PadStart(Text.NatToString(n), width, '0')) == n
    ensures |Text.PadStart(Text.NatToString(n), width, '0')| >= width
    ensures width >= 1 && n < Text.Pow10(width) ==> |Text.PadStart(Text.NatToString(n), width, '0')| == width
  {
    PadKeepsValue(Text.NatToString(n), width);
    Text.NatToStringValue(n);
    DigitsFit(n, width);
  }

  /** Padding a digit string with zeros keeps it a digit string with the same value. */
  lemma PadKeepsValue(s: string, width: nat)
    requires Text.AllDigits(s)
    ensures Text.AllDigits(Text.PadStart(s, width, '0'))
    ensures Text.Value(Text.PadStart(s, width, '0')) == Text.Value(s)
  {
    if |s| < width {
      assert Text.PadStart(s, width, '0') == Text.Repeat('0', width - |s|) + s;
      Text.LeadingZerosKeepValue(width - |s|, s);
    }
  }

  /** A number below `10^width` has at most `width` digits. */
  lemma DigitsFit(n: nat, width: nat)
    ensures width >= 1 && n < Text.Pow10(width) ==> |Text.NatToString(n)| <= width
  {
    Text.NatToStringValue(n);
    if width >= 1 && n < Text.Pow10(width) && |Text.NatToString(n)| > width {
      Text.Pow10Monotone(width, |Text.NatToString(n)| - 1);
    }
  }

  // ---------------------------------------------------------------------------
  // Escaping
  // ---------------------------------------------------------------------------

  /** `.replace(/</g, "&lt;").replace(/>/g, "&gt;")`. */
  function EscapeHtml(s: string): (r: string)
    ensures '<' !in r && '>' !in r
  {
    var once := Text.ReplaceChar(s, '<', "&lt;");
    Text.ReplaceCharRemoves(s, '<', "&lt;", '<');
    Text.ReplaceCharRemoves(once, '>', "&gt;", '<');
    Text.ReplaceChar(once, '>', "&gt;")
  }

  /** What `EscapeHtml` writes for one character. */
  function EscapeHtmlChar(c: char): string
  {
    if c == '<' then "&lt;" else if c == '>' then "&gt;" else [c]
  }

  /** Reading the two entities back, left to right. */
  function UnescapeHtml(t: string): string
    decreases |t|
  {
    if t == [] then []
    else if Text.StartsWith(t, "&lt;") then "<" + UnescapeHtml(t[4..])
    else if Text.StartsWith(t, "&gt;") then ">" + UnescapeHtml(t[4..])
    else [t[0]] + UnescapeHtml(t[1..])
  }

  /** The two passes escape one character at a time. */
  lemma EscapeHtmlCons(c: char, rest: string)
    ensures EscapeHtml([c] + rest) == EscapeHtmlChar(c) + EscapeHtml(rest)
  {
    var s := [c] + rest;
    assert s[1..] == rest;
    var head := if c == '<' then "&lt;" else [c];
    assert Text.ReplaceChar(s, '<', "&lt;") == head + Text.ReplaceChar(rest, '<', "&lt;");
    Text.ReplaceCharAppend(head, Text.ReplaceChar(rest, '<', "&lt;"), '>', "&gt;");
    if c != '<' {
      assert head[1..] == [];
    }
  }

  /** Reading back one escaped character that is not `&`. */
  lemma UnescapeHtmlChar(c: char, rest: string)
    requires c != '&'
    ensures UnescapeHtml(EscapeHtmlChar(c) + rest) == [c] + UnescapeHtml(rest)
  {
    var t := EscapeHtmlChar(c) + rest;
    if c == '<' || c == '>' {
      assert t[..4] == EscapeHtmlChar(c);
      assert t[4..] == rest;
    } else {
      assert t[0] == c && t[1..] == rest;
      assert !Text.StartsWith(t, "&lt;") && !Text.StartsWith(t, "&gt;");
    }
  }

  /** A description without `&` is recovered from its escaped form. */
  lemma {:induction false} EscapeHtmlRoundTrip(s: string)
    requires '&' !in s
    ensures UnescapeHtml(EscapeHtml(s)) == s
  {
    if s != [] {
      EscapeHtmlCons(s[0], s[1..]);
      EscapeHtmlRoundTrip(s[1..]);
      UnescapeHtmlChar(s[0], EscapeHtml(s[1..]));
      assert s == [s[0]] + s[1..];
    }
  }

  /** Escaping is not injective: an `&lt;` typed by the user prints as `<`. */
  lemma EscapeHtmlMergesEntity()
    ensures "<" != "&lt;" && EscapeHtml("<") == EscapeHtml("&lt;")
  {
    EscapeHtmlCons('<', "");
    var lt := "&lt;";
    EscapeHtmlCons('&', lt[1..]);
    EscapeHtmlCons('l', lt[2..]);
    EscapeHtmlCons('t', lt[3..]);
    EscapeHtmlCons(';', lt[4..]);
  }

  // ---------------------------------------------------------------------------
  // Item rows
  // ---------------------------------------------------------------------------

  /** An invoice item of the PDF input; amounts are integers here. */
  datatype Item = Item(descripcion: string, cantidad: int, precioUnitario: int, importe: int)

  function Spaces(n: nat): string { Text.Repeat(' ', n) }

  /** One `<td>` line per cell, each on its own indented line. */
  function Cells(cells: seq<string>, indent: nat): string
  {
    if cells == [] then "" else Spaces(indent) + "<td>" + cells[0] + "</td>\n" + Cells(cells[1..], indent)
  }

  /** The template literal of one table row, with its layout whitespace. */
  function TableRow(cells: seq<string>, indent: nat): string
    requires indent >= 2
  {
    "\n" + Spaces(indent) + "<tr>\n" + Cells(cells, indent + 2) + Spaces(indent) + "</tr>\n" + Spaces(indent - 2)
  }

  /** Every cell of a row appears in it between `<td>` and `</td>`. */
  lemma {:induction false} CellsContain(cells: seq<string>, indent: nat, i: nat)
    requires i < |cells|
    ensures Text.Contains(Cells(cells, indent), "<td>" + cells[i] + "</td>")
  {
    if i == 0 {
      CellsHead(cells, indent);
    } else {
      CellsContain(cells[1..], indent, i - 1);
      CellsTail(cells, indent, i);
    }
  }

  lemma CellsHead(cells: seq<string>, indent: nat)
    requires |cells| >= 1
    ensures Text.Contains(Cells(cells, indent), "<td>" + cells[0] + "</td>")
  {
    var t := "<td>" + cells[0] + "</td>";
    var head := Spaces(indent) + "<td>" + cells[0] + "</td>\n";
    Text.ContainsSelf(t);
    Text.ContainsAppend(Spaces(indent), t, t);
    Text.ContainsAppend(Spaces(indent) + t, "\n", t);
    assert head == (Spaces(indent) + t) + "\n";
    Text.ContainsAppend(head, Cells(cells[1..], indent), t);
  }

  lemma CellsTail(cells: seq<string>, indent: nat, i: nat)
    requires 1 <= i < |cells|
    requires Text.Contains(Cells(cells[1..], indent), "<td>" + cells[1..][i - 1] + "</td>")
    ensures Text.Contains(Cells(cells, indent), "<td>" + cells[i] + "</td>")
  {
    assert cells[1..][i - 1] == cells[i];
    var head := Spaces(indent) + "<td>" + cells[0] + "</td>\n";
    Text.ContainsAppend(head, Cells(cells[1..], indent), "<td>" + cells[i] + "</td>");
  }

  lemma RowContains(cells: seq<string>, indent: nat, i: nat)
    requires indent >= 2 && i < |cells|
    ensures Text.Contains(TableRow(cells, indent), "<td>" + cells[i] + "</td>")
  {
    var t := "<td>" + cells[i] + "</td>";
    var front := "\n" + Spaces(indent) + "<tr>\n";
    var back := Spaces(indent) + "</tr>\n" + Spaces(indent - 2);
    CellsContain(cells, indent + 2, i);
    Text.ContainsAppend(front, Cells(cells, indent + 2), t);
    Text.ContainsAppend(front + Cells(cells, indent + 2), back, t);
    assert TableRow(cells, indent) == front + Cells(cells, indent + 2) + back;
  }

  /** The code column of row `idx`: `String(idx + 1).padStart(3, "0")`. */
  function ItemCode(idx: nat): (r: string)
    ensures Text.AllDigits(r) && Text.Value(r) == idx + 1
    ensures idx + 1 < 1000 ==> |r| == 3
  {
    ZeroPadded(idx + 1, 3)
  }

  /** The cells of an item's row, in column order. */
  function ItemCells(it: Item, idx: nat, fmt: int -> string): (r: seq<string>)
    ensures |r| == 8 && r[0] == ItemCode(idx) && r[1] == EscapeHtml(it.descripcion)
  {
    [ItemCode(idx), EscapeHtml(it.descripcion), fmt(it.cantidad), "Unidad", fmt(it.precioUnitario),
     "0,00", "0,00", fmt(it.importe)]
  }

  /** The row of the item numbered `idx`; it opens with a line break. */
  function ItemRow(it: Item, idx: nat, fmt: int -> string): (r: string)
    ensures r != []
  {
    TableRow(ItemCells(it, idx, fmt), 8)
  }

  /** `items.map((it, idx) => row)`: one row per item, numbering from 0. */
  function ItemRows(items: seq<Item>, fmt: int -> string): (r: seq<string>)
    ensures |r| == |items|
  {
    seq(|items|, k requires 0 <= k < |items| => ItemRow(items[k], k, fmt))
  }

  /** `renderItems`: nothing for no items, otherwise the rows joined with `""`. */
  function RenderItems(items: seq<Item>, fmt: int -> string): (r: string)
    ensures r == "" <==> items == []
  {
    if |items| == 0 then ""
    else
      var rows := ItemRows(items, fmt);
      assert rows[0] != [];
      Text.JoinStartsWithFirst(rows, "");
      Text.Join(rows, "")
  }

  /**
   * The rendered rows name every item: row `i` carries the code `i + 1`
   * padded to three digits and the escaped description.
   */
  lemma RenderItemsRows(items: seq<Item>, fmt: int -> string, i: nat)
    requires i < |items|
    ensures Text.Contains(RenderItems(items, fmt), "<td>" + ItemCode(i) + "</td>")
    ensures Text.Contains(RenderItems(items, fmt), "<td>" + EscapeHtml(items[i].descripcion) + "</td>")
  {
    var cells := ItemCells(items[i], i, fmt);
    var rows := ItemRows(items, fmt);
    assert rows[i] == TableRow(cells, 8);
    RowContains(cells, 8, 0);
    RowContains(cells, 8, 1);
    Text.JoinContains(rows, "", i, "<td>" + cells[0] + "</td>");
    Text.JoinContains(rows, "", i, "<td>" + cells[1] + "</td>");
  }
}
