/**
 * The date-range voucher locator of the `get_invoices_in_date_range` tool.
 *
 * The electronic-billing ledger of one point of sale and voucher type is
 * numbered 1, 2, ..., and offers two queries: the number of the last
 * authorised voucher, and the voucher with a given number. The locator
 * finds the vouchers dated within `[fechaDesde, fechaHasta]` by
 * binary-searching the numbers for the boundaries of the range, refusing
 * spans larger than a safety cap, fetching the span in batches and
 * keeping the vouchers whose date falls in the range.
 *
 * Dates are `YYYYMMDD` strings compared as JavaScript compares strings
 * (`Text.Less`), which is numeric order on 8-digit dates
 * (`Text.LexOrderIsNumericOrder`).
 */
module InvoicesInDateRange {
  import opened Wrappers
  import opened Text
  import Schema = InvoicesInDateRangeSchema
  import Validation
  import JsValue

  // ---------------------------------------------------------------------
  // The ledger
  // ---------------------------------------------------------------------

  /** The fields of a voucher record that the locator reads; absent fields are `None`. */
  datatype VoucherData = VoucherData(
    cbteFch: Option<string>,
    impTotal: Option<int>,
    cae: Option<string>,
    caeExpiry: Option<string>,
    docTipo: Option<int>,
    docNro: Option<int>)

  /** The outcome of asking the ledger for one voucher: it threw, or it answered (possibly with nothing). */
  datatype Probe = Throws | Returned(record: Option<VoucherData>)

  /** The ledger's answer for each voucher number; it does not change during one call. */
  type Ledger = nat -> Probe

  /** `voucherData?.CbteFch`, with "" for a failed probe, an empty answer or a missing date. */
  function DateOf(p: Probe): string
  {
    if p.Returned? && p.record.Some? then p.record.value.cbteFch.GetOr("") else ""
  }

  /** The probe yields a date: `voucherData?.CbteFch` is truthy. */
  predicate Readable(p: Probe)
  {
    DateOf(p) != ""
  }

  /** Every number in 1..n has a record with a date, and dates never decrease with the number. */
  predicate Ordered(at: Ledger, n: nat)
  {
    && (forall i :: 1 <= i <= n ==> Readable(at(i)))
    && (forall i, j :: 1 <= i <= j <= n ==> LessEq(DateOf(at(i)), DateOf(at(j))))
  }

  // ---------------------------------------------------------------------
  // Results
  // ---------------------------------------------------------------------

  /** One voucher in the answer; `docTipo`/`docNro` are `None` when absent or left out. */
  datatype VoucherSummary = VoucherSummary(
    cbteNro: nat,
    cbteFch: string,
    impTotal: int,
    cae: string,
    caeExpiry: string,
    docTipo: Option<int>,
    docNro: Option<int>)

  datatype Performance = Performance(totalQueries: nat, binarySearchQueries: nat, batchQueries: nat)

  datatype Summary = Summary(
    totalVouchers: nat,
    totalAmount: int,
    from: string,
    to: string,
    first: nat,
    last: nat)

  datatype Failure =
    | InvalidParams(issues: seq<Validation.Issue>)
    | TooManyVouchers(message: string)

  datatype Response =
    | Found(summary: Summary, vouchers: seq<VoucherSummary>, performance: Performance)
    | Failed(failure: Failure, performance: Performance)

  /** What the fallback adds to `totalQueries`: a fixed estimate, not the probes it made. */
  const FallbackQueryEstimate: nat := 10

  /** Where the backward scan for the last voucher starts. */
  const MaxTest: nat := 100

  // ---------------------------------------------------------------------
  // Reference definitions
  // ---------------------------------------------------------------------

  /** Whether a fetched record is kept: it has a date and `desde <= date <= hasta`. */
  predicate Keep(p: Probe, from: string, to: string)
  {
    Readable(p) && LessEq(from, DateOf(p)) && LessEq(DateOf(p), to)
  }

  /** The summary of a kept record; missing amounts count 0, missing texts are "". */
  function Summarize(j: nat, d: VoucherData): VoucherSummary
  {
    VoucherSummary(j, d.cbteFch.GetOr(""), d.impTotal.GetOr(0), d.cae.GetOr(""),
      d.caeExpiry.GetOr(""), d.docTipo, d.docNro)
  }

  /** The summaries of number `j`'s record if it is kept, in a list of at most one. */
  function Kept(at: Ledger, j: nat, from: string, to: string): seq<VoucherSummary>
  {
    if Keep(at(j), from, to) then [Summarize(j, at(j).record.value)] else []
  }

  /** The summary of an answer for number `j` if it is kept, in a list of at most one. */
  function KeptOne(j: nat, p: Probe, from: string, to: string): seq<VoucherSummary>
  {
    if Keep(p, from, to) then [Summarize(j, p.record.value)] else []
  }

  /** Numbers strictly increase along the list. */
  predicate Increasing(vs: seq<VoucherSummary>)
  {
    forall a, b :: 0 <= a < b < |vs| ==> vs[a].cbteNro < vs[b].cbteNro
  }

  /** Every summary comes from a kept record numbered in `lo..hi-1`, copied field by field. */
  predicate Drawn(vs: seq<VoucherSummary>, at: Ledger, lo: nat, hi: nat, from: string, to: string)
  {
    forall k :: 0 <= k < |vs| ==>
      (&& lo <= vs[k].cbteNro < hi
       && Keep(at(vs[k].cbteNro), from, to)
       && vs[k] == Summarize(vs[k].cbteNro, at(vs[k].cbteNro).record.value))
  }

  /**
   * A plain scan of the numbers `lo..hi-1` in order, keeping what the
   * locator keeps: the specification of what the locator returns.
   */
  function Collect(at: Ledger, lo: nat, hi: nat, from: string, to: string): seq<VoucherSummary>
    decreases hi
  {
    if hi <= lo then [] else Collect(at, lo, hi - 1, from, to) + Kept(at, hi - 1, from, to)
  }

  /** The sum of the amounts. */
  function Total(vs: seq<VoucherSummary>): int
  {
    if vs == [] then 0 else Total(vs[..|vs| - 1]) + vs[|vs| - 1].impTotal
  }

  /** The numbers `lo..hi-1` in order. */
  function Range(lo: nat, hi: nat): seq<nat>
    decreases hi
  {
    if hi <= lo then [] else Range(lo, hi - 1) + [hi - 1]
  }

  /** `Range(lo, hi)` holds `hi - lo` numbers, the k-th being `lo + k`. */
  lemma {:induction false} RangeIndex(lo: nat, hi: nat)
    ensures |Range(lo, hi)| == if hi <= lo then 0 else hi - lo
    ensures forall k :: 0 <= k < |Range(lo, hi)| ==> Range(lo, hi)[k] == lo + k
    decreases hi
  {
    if hi > lo {
      RangeIndex(lo, hi - 1);
    }
  }

  /** The batches laid end to end. */
  function Flatten(batches: seq<seq<nat>>): seq<nat>
  {
    if batches == [] then [] else Flatten(batches[..|batches| - 1]) + batches[|batches| - 1]
  }

  /** The largest number in 1..k whose record has a date, 0 when there is none. */
  function LastReadable(at: Ledger, k: nat): (r: nat)
    ensures r <= k
  {
    if k == 0 then 0 else if Readable(at(k)) then k else LastReadable(at, k - 1)
  }

  /** The number the locator works up to: the ledger's answer, or the backward scan's. */
  function LatestNumber(lastVoucher: Option<nat>, at: Ledger): nat
  {
    match lastVoucher
    case Some(n) => n
    case None => LastReadable(at, MaxTest)
  }

  /** The number of halvings that empty a window of `s` numbers: a bound on a binary search's probes. */
  function Bits(s: nat): nat
  {
    if s == 0 then 0 else 1 + Bits(s / 2)
  }

  /** The error text for a span over the cap. */
  function CapMessage(span: nat, max: int): string
  {
    "El rango contiene " + NatToString(span) + " comprobantes, pero el límite es "
      + JsValue.NumberToString(max) + ". " + "Ajuste el rango de fechas o aumente maxVouchers."
  }

  /** A summary as reported: without `docTipo` and `docNro` unless details are asked for. */
  function Shape(v: VoucherSummary, includeDetails: bool): VoucherSummary
  {
    if includeDetails then v else v.(docTipo := None, docNro := None)
  }

  function ShapeAll(vs: seq<VoucherSummary>, includeDetails: bool): (r: seq<VoucherSummary>)
    ensures |r| == |vs|
    ensures forall k :: 0 <= k < |vs| ==> r[k] == Shape(vs[k], includeDetails)
  {
    if vs == [] then [] else [Shape(vs[0], includeDetails)] + ShapeAll(vs[1..], includeDetails)
  }

  /** The successful answer for the vouchers found (sorted by number, as the caller ensures). */
  function Report(vs: seq<VoucherSummary>, from: string, to: string, includeDetails: bool, perf: Performance): Response
  {
    Found(
      Summary(|vs|, Total(vs), from, to,
        if |vs| > 0 then vs[0].cbteNro else 0,
        if |vs| > 0 then vs[|vs| - 1].cbteNro else 0),
      ShapeAll(vs, includeDetails),
      perf)
  }

  /** `createEmptyResult`: the answer when nothing lies in the range. */
  function CreateEmptyResult(from: string, to: string, perf: Performance): (r: Response)
    ensures r == Report([], from, to, false, perf)
    ensures r == Report([], from, to, true, perf)
  {
    Found(Summary(0, 0, from, to, 0, 0), [], perf)
  }

  /** `formatDate` (unused by the tool): `YYYYMMDD` to `DD/MM/YYYY`, other lengths unchanged. */
  function FormatDate(s: string): (r: string)
    ensures |s| == 8 ==>
      (&& |r| == 10 && r[2] == '/' && r[5] == '/'
       && r[..2] == s[6..] && r[3..5] == s[4..6] && r[6..] == s[..4])
    ensures |s| != 8 ==> r == s
  {
    if |s| != 8 then s else s[6..8] + "/" + s[4..6] + "/" + s[0..4]
  }

  // ---------------------------------------------------------------------
  // Lemmas about the reference definitions
  // ---------------------------------------------------------------------

  lemma {:induction false} BitsMonotone(a: nat, b: nat)
    requires a <= b
    ensures Bits(a) <= Bits(b)
    decreases b
  {
    if a > 0 {
      BitsMonotone(a / 2, b / 2);
    }
  }

  /** `LastReadable` is the last number with a date: everything above it up to `k` has none. */
  lemma {:induction false} LastReadableIsLast(at: Ledger, k: nat)
    ensures var r := LastReadable(at, k);
      && (r == 0 || (1 <= r && Readable(at(r))))
      && (forall i :: r < i <= k ==> !Readable(at(i)))
  {
    if k > 0 && !Readable(at(k)) {
      LastReadableIsLast(at, k - 1);
    }
  }

  /** What a scan of `lo..hi-1` can hold: at most one summary per number, increasing, each drawn from a kept record. */
  predicate SoundScan(r: seq<VoucherSummary>, at: Ledger, lo: nat, hi: nat, from: string, to: string)
  {
    |r| <= (if hi <= lo then 0 else hi - lo) && Increasing(r) && Drawn(r, at, lo, hi, from, to)
  }

  /** A scan returns summaries of kept records from the scanned numbers, in increasing order, at most one per number. */
  lemma {:induction false} CollectSound(at: Ledger, lo: nat, hi: nat, from: string, to: string)
    ensures SoundScan(Collect(at, lo, hi, from, to), at, lo, hi, from, to)
    decreases hi
  {
    if hi > lo {
      var c := Collect(at, lo, hi - 1, from, to);
      CollectSound(at, lo, hi - 1, from, to);
      SoundThroughKept(at, lo, hi - 1, c, from, to);
      assert Collect(at, lo, hi, from, to) == c + Kept(at, hi - 1, from, to);
    }
  }

  /** Appending number `j`'s kept record to a sound scan of `lo..j-1` gives a sound scan of `lo..j`. */
  lemma SoundThroughKept(at: Ledger, lo: nat, j: nat, c: seq<VoucherSummary>, from: string, to: string)
    requires lo <= j && SoundScan(c, at, lo, j, from, to)
    ensures SoundScan(c + Kept(at, j, from, to), at, lo, j + 1, from, to)
  {
    var r := c + Kept(at, j, from, to);
    assert forall k :: 0 <= k < |c| ==> r[k] == c[k];
    if Keep(at(j), from, to) {
      assert r[|c|] == Summarize(j, at(j).record.value);
    }
  }

  /** A scan grows by the next number's record, if kept. */
  lemma CollectStep(at: Ledger, lo: nat, hi: nat, from: string, to: string)
    requires lo <= hi
    ensures Collect(at, lo, hi + 1, from, to) == Collect(at, lo, hi, from, to) + Kept(at, hi, from, to)
  {
  }

  /** A scan splits at any intermediate number. */
  lemma {:induction false} CollectSplit(at: Ledger, lo: nat, mid: nat, hi: nat, from: string, to: string)
    requires lo <= mid <= hi
    ensures Collect(at, lo, hi, from, to) == Collect(at, lo, mid, from, to) + Collect(at, mid, hi, from, to)
    decreases hi
  {
    if hi > mid {
      CollectSplit(at, lo, mid, hi - 1, from, to);
    }
  }

  /** A scan over numbers none of which is kept is empty. */
  lemma {:induction false} CollectNone(at: Ledger, lo: nat, hi: nat, from: string, to: string)
    requires forall i :: lo <= i < hi ==> !Keep(at(i), from, to)
    ensures Collect(at, lo, hi, from, to) == []
    decreases hi
  {
    if hi > lo {
      CollectNone(at, lo, hi - 1, from, to);
    }
  }

  /** A scan over numbers all of which are kept returns one summary per number. */
  lemma {:induction false} CollectAll(at: Ledger, lo: nat, hi: nat, from: string, to: string)
    requires lo <= hi
    requires forall i :: lo <= i < hi ==> Keep(at(i), from, to)
    ensures |Collect(at, lo, hi, from, to)| == hi - lo
    decreases hi
  {
    if hi > lo {
      CollectAll(at, lo, hi - 1, from, to);
    }
  }

  /** Every kept number in the scanned numbers appears in the scan. */
  lemma {:induction false} CollectComplete(at: Ledger, lo: nat, hi: nat, from: string, to: string, j: nat)
    requires lo <= j < hi && Keep(at(j), from, to)
    ensures exists k :: 0 <= k < |Collect(at, lo, hi, from, to)| && Collect(at, lo, hi, from, to)[k].cbteNro == j
    decreases hi
  {
    var c := Collect(at, lo, hi, from, to);
    if j == hi - 1 {
      assert c[|c| - 1].cbteNro == j;
    } else {
      CollectComplete(at, lo, hi - 1, from, to, j);
      var k :| 0 <= k < |Collect(at, lo, hi - 1, from, to)| && Collect(at, lo, hi - 1, from, to)[k].cbteNro == j;
      assert c[k] == Collect(at, lo, hi - 1, from, to)[k];
    }
  }

  lemma {:induction false} RangeAppend(lo: nat, mid: nat, hi: nat)
    requires lo <= mid <= hi
    ensures Range(lo, mid) + Range(mid, hi) == Range(lo, hi)
  {
    RangeIndex(lo, mid);
    RangeIndex(mid, hi);
    RangeIndex(lo, hi);
    assert forall k :: 0 <= k < hi - lo ==> (Range(lo, mid) + Range(mid, hi))[k] == lo + k;
  }

  lemma FlattenSnoc(batches: seq<seq<nat>>, b: seq<nat>)
    ensures Flatten(batches + [b]) == Flatten(batches) + b
  {
    assert (batches + [b])[..|batches|] == batches;
  }

  lemma TotalSnoc(vs: seq<VoucherSummary>, v: VoucherSummary)
    ensures Total(vs + [v]) == Total(vs) + v.impTotal
  {
    assert (vs + [v])[..|vs|] == vs;
  }

  /** Ordered by number, without requiring distinct numbers. */
  predicate ByNumber(vs: seq<VoucherSummary>)
  {
    forall a, b :: 0 <= a < b < |vs| ==> vs[a].cbteNro <= vs[b].cbteNro
  }

  /** A sorted permutation of an increasing list starts with the same summary. */
  lemma SortedHead(vs: seq<VoucherSummary>, sorted: seq<VoucherSummary>)
    requires vs != [] && Increasing(vs) && ByNumber(sorted)
    requires multiset(sorted) == multiset(vs)
    ensures sorted != [] && sorted[0] == vs[0]
  {
    assert |sorted| == |vs| by {
      assert |multiset(sorted)| == |multiset(vs)|;
    }
    assert vs[0] in multiset(sorted);
    var k :| 0 <= k < |sorted| && sorted[k] == vs[0];
    assert sorted[0] in multiset(vs);
    var m :| 0 <= m < |vs| && vs[m] == sorted[0];
    assert sorted[0].cbteNro <= sorted[k].cbteNro;
  }

  /** Dropping the common head keeps both hypotheses. */
  lemma SortedTail(vs: seq<VoucherSummary>, sorted: seq<VoucherSummary>)
    requires vs != [] && sorted != [] && sorted[0] == vs[0]
    requires Increasing(vs) && ByNumber(sorted)
    requires multiset(sorted) == multiset(vs)
    ensures Increasing(vs[1..]) && ByNumber(sorted[1..])
    ensures multiset(sorted[1..]) == multiset(vs[1..])
  {
    forall a, b | 0 <= a < b < |vs| - 1
      ensures vs[1..][a].cbteNro < vs[1..][b].cbteNro
    {
      assert vs[1..][a] == vs[a + 1] && vs[1..][b] == vs[b + 1];
    }
    forall a, b | 0 <= a < b < |sorted| - 1
      ensures sorted[1..][a].cbteNro <= sorted[1..][b].cbteNro
    {
      assert sorted[1..][a] == sorted[a + 1] && sorted[1..][b] == sorted[b + 1];
    }
    assert vs == [vs[0]] + vs[1..];
    assert sorted == [sorted[0]] + sorted[1..];
    assert multiset(vs[1..]) == multiset(vs) - multiset{vs[0]};
    assert multiset(sorted[1..]) == multiset(sorted) - multiset{sorted[0]};
  }

  /**
   * Sorting by number changes nothing on a list whose numbers already
   * strictly increase: whatever order-by-number permutation a sort
   * returns, it is the list itself.
   */
  lemma {:induction false} SortKeepsIncreasing(vs: seq<VoucherSummary>, sorted: seq<VoucherSummary>)
    requires Increasing(vs)
    requires multiset(sorted) == multiset(vs)
    requires forall a, b :: 0 <= a < b < |sorted| ==> sorted[a].cbteNro <= sorted[b].cbteNro
    ensures sorted == vs
    decreases |vs|
  {
    assert ByNumber(sorted);
    if vs == [] {
      assert |multiset(sorted)| == 0;
    } else {
      SortedHead(vs, sorted);
      SortedTail(vs, sorted);
      SortKeepsIncreasing(vs[1..], sorted[1..]);
      assert vs == [vs[0]] + vs[1..];
      assert sorted == [sorted[0]] + sorted[1..];
    }
  }

  // ---------------------------------------------------------------------
  // The locator
  // ---------------------------------------------------------------------

  /** `findLastVoucherBySearch`: scan down from 100 for the first number with a dated record. */
  method FindLastVoucherBySearch(at: Ledger) returns (lastFound: nat)
    ensures lastFound == LastReadable(at, MaxTest)
  {
    lastFound := 0;
    var i := MaxTest;
    while i >= 1
      invariant 0 <= i <= MaxTest
      invariant LastReadable(at, i) == LastReadable(at, MaxTest)
    {
      if Readable(at(i)) {
        lastFound := i;
        break;
      }
      i := i - 1;
    }
  }

  /**
   * The first binary search of the historical strategy: the last number
   * in 1..n whose date is at most `to`. A failed or dateless probe moves
   * the window up; only answered probes are counted.
   */
  method FindLastOnOrBefore(at: Ledger, n: nat, to: string) returns (last: nat, queries: nat)
    ensures last <= n
    ensures last == 0 || (1 <= last && Readable(at(last)) && LessEq(DateOf(at(last)), to))
    ensures queries <= Bits(n)
    ensures Ordered(at, n) ==> forall i :: 1 <= i <= n ==> (i <= last <==> LessEq(DateOf(at(i)), to))
  {
    var inicio, fin := 1, n;
    last, queries := 0, 0;
    while inicio <= fin
      invariant 1 <= inicio <= fin + 1 <= n + 1
      invariant last == 0 || (1 <= last < inicio && Readable(at(last)) && LessEq(DateOf(at(last)), to))
      invariant queries + Bits(fin - inicio + 1) <= Bits(n)
      invariant Ordered(at, n) ==> last == inicio - 1
      invariant Ordered(at, n) ==> forall i :: 1 <= i < inicio ==> LessEq(DateOf(at(i)), to)
      invariant Ordered(at, n) ==> forall i :: fin < i <= n ==> Less(to, DateOf(at(i)))
      decreases fin - inicio + 1
    {
      var size := fin - inicio + 1;
      var medio := (inicio + fin) / 2;
      var probe := at(medio);
      ghost var inicio0, fin0 := inicio, fin;
      if probe.Returned? {
        queries := queries + 1;
        if !Readable(probe) {
          inicio := medio + 1;
        } else if LessEq(DateOf(probe), to) {
          last := medio;
          inicio := medio + 1;
          if Ordered(at, n) {
            forall i | inicio0 <= i <= medio ensures LessEq(DateOf(at(i)), to) {
              LessEqTransitive(DateOf(at(i)), DateOf(probe), to);
            }
          }
        } else {
          fin := medio - 1;
          if Ordered(at, n) {
            forall i | medio <= i <= fin0 ensures Less(to, DateOf(at(i))) {
              LessLessEq(to, DateOf(probe), DateOf(at(i)));
            }
          }
        }
      } else {
        inicio := medio + 1;
      }
      BitsMonotone(fin - inicio + 1, size / 2);
    }
  }

  /**
   * The second historical search, and the single search of the recent
   * strategy: the first number in 1..hi whose date is at least `from`,
   * `none` when there is no such number.
   */
  method FindFirstOnOrAfter(at: Ledger, hi: nat, from: string, none: nat) returns (first: nat, queries: nat)
    requires hi < none
    ensures first == none || (1 <= first <= hi && Readable(at(first)) && LessEq(from, DateOf(at(first))))
    ensures queries <= Bits(hi)
    ensures Ordered(at, hi) ==> forall i :: 1 <= i <= hi ==> (first <= i <==> LessEq(from, DateOf(at(i))))
  {
    var inicio, fin := 1, hi;
    first, queries := none, 0;
    while inicio <= fin
      invariant 1 <= inicio <= fin + 1 <= hi + 1
      invariant first == none || (fin < first <= hi && Readable(at(first)) && LessEq(from, DateOf(at(first))))
      invariant queries + Bits(fin - inicio + 1) <= Bits(hi)
      invariant Ordered(at, hi) ==> first == if fin == hi then none else fin + 1
      invariant Ordered(at, hi) ==> forall i :: 1 <= i < inicio ==> Less(DateOf(at(i)), from)
      invariant Ordered(at, hi) ==> forall i :: fin < i <= hi ==> LessEq(from, DateOf(at(i)))
      decreases fin - inicio + 1
    {
      var size := fin - inicio + 1;
      var medio := (inicio + fin) / 2;
      var probe := at(medio);
      ghost var inicio0, fin0 := inicio, fin;
      if probe.Returned? {
        queries := queries + 1;
        if !Readable(probe) {
          inicio := medio + 1;
        } else if LessEq(from, DateOf(probe)) {
          first := medio;
          fin := medio - 1;
          if Ordered(at, hi) {
            forall i | medio <= i <= fin0 ensures LessEq(from, DateOf(at(i))) {
              LessEqTransitive(from, DateOf(probe), DateOf(at(i)));
            }
          }
        } else {
          inicio := medio + 1;
          if Ordered(at, hi) {
            forall i | inicio0 <= i <= medio ensures Less(DateOf(at(i)), from) {
              LessEqLess(DateOf(at(i)), DateOf(probe), from);
            }
          }
        }
      } else {
        inicio := medio + 1;
      }
      BitsMonotone(fin - inicio + 1, size / 2);
    }
  }

  /**
   * The batch loop: numbers `first..last` are fetched in consecutive
   * batches of at most `batchSize`, each batch's answers processed in
   * order, and the dated, in-range records summarised.
   */
  method FetchInBatches(at: Ledger, first: nat, last: nat, batchSize: nat, from: string, to: string)
    returns (vouchers: seq<VoucherSummary>, totalAmount: int, dispatched: nat, ghost batches: seq<seq<nat>>)
    requires 1 <= first <= last
    requires batchSize >= 1
    ensures vouchers == Collect(at, first, last + 1, from, to)
    ensures totalAmount == Total(vouchers)
    ensures dispatched == last - first + 1
    ensures Flatten(batches) == Range(first, last + 1)
    ensures BatchSizes(batches, batchSize)
  {
    vouchers, totalAmount, dispatched, batches := [], 0, 0, [];
    var i := first;
    while i <= last
      invariant BatchesSoFar(at, first, last, batchSize, from, to, i, vouchers, totalAmount, dispatched, batches)
      invariant BatchSizes(batches, batchSize)
      decreases last + 1 - i
    {
      vouchers, totalAmount, dispatched, batches, i :=
        FetchBatch(at, first, i, last, batchSize, from, to, vouchers, totalAmount, dispatched, batches);
    }
    BatchesDone(at, first, last, batchSize, from, to, i, vouchers, totalAmount, dispatched, batches);
  }

  /** Once `i` has passed `last`, the loop's state covers all of `first..last`. */
  lemma BatchesDone(at: Ledger, first: nat, last: nat, batchSize: nat, from: string, to: string, i: nat,
                    vouchers: seq<VoucherSummary>, totalAmount: int, dispatched: nat, batches: seq<seq<nat>>)
    requires BatchesSoFar(at, first, last, batchSize, from, to, i, vouchers, totalAmount, dispatched, batches)
    requires i > last
    ensures vouchers == Collect(at, first, last + 1, from, to)
    ensures totalAmount == Total(vouchers)
    ensures dispatched == last - first + 1
    ensures Flatten(batches) == Range(first, last + 1)
  {
    assert Min(i, last + 1) == last + 1;
  }

  /** Every batch holds at least one and at most `batchSize` numbers. */
  ghost predicate BatchSizes(batches: seq<seq<nat>>, batchSize: nat)
  {
    forall b :: b in batches ==> 1 <= |b| <= batchSize
  }

  /** The state of the batch loop before the batch starting at `i`: everything below `Min(i, last + 1)` is done. */
  ghost predicate BatchesSoFar(at: Ledger, first: nat, last: nat, batchSize: nat, from: string, to: string, i: nat,
                               vouchers: seq<VoucherSummary>, totalAmount: int, dispatched: nat, batches: seq<seq<nat>>)
  {
    && first <= i <= last + batchSize
    && first <= Min(i, last + 1)
    && vouchers == Collect(at, first, Min(i, last + 1), from, to)
    && totalAmount == Total(vouchers)
    && dispatched == Min(i, last + 1) - first
    && Flatten(batches) == Range(first, Min(i, last + 1))
  }

  /**
   * One batch fetched from `i` and processed moves the loop's state on to
   * `i + batchSize`: the postconditions of `FetchBatch`, in its own terms.
   */
  lemma BatchStep(at: Ledger, first: nat, last: nat, batchSize: nat, from: string, to: string, i: nat, next: nat,
                  lote: seq<(nat, Probe)>, numbers: seq<nat>,
                  vouchers0: seq<VoucherSummary>, totalAmount0: int, dispatched0: nat, batches0: seq<seq<nat>>,
                  vouchers: seq<VoucherSummary>, totalAmount: int, dispatched: nat, batches: seq<seq<nat>>)
    requires BatchesSoFar(at, first, last, batchSize, from, to, i, vouchers0, totalAmount0, dispatched0, batches0)
    requires first <= i <= last && batchSize >= 1 && next == i + batchSize
    requires |lote| == Min(i + batchSize, last + 1) - i && Batch(lote, at, i)
    requires numbers == Range(i, Min(i + batchSize, last + 1))
    requires vouchers == vouchers0 + KeptAll(lote, from, to) && totalAmount == Total(vouchers)
    requires dispatched == dispatched0 + |lote| && batches == batches0 + [numbers]
    ensures dispatched == dispatched0 + Min(next, last + 1) - i && dispatched > dispatched0
    ensures batches == batches0 + [Range(i, Min(next, last + 1))]
    ensures vouchers == Collect(at, first, Min(next, last + 1), from, to)
    ensures totalAmount == Total(vouchers)
    ensures BatchesSoFar(at, first, last, batchSize, from, to, next, vouchers, totalAmount, dispatched, batches)
  {
    assert Min(i, last + 1) == i;
    assert numbers == Range(i, Min(next, last + 1));
    ScanAfterBatch(at, lote, first, i, Min(i, last + 1), Min(next, last + 1), from, to, vouchers0, vouchers);
    FlattenRange(batches0, numbers, first, Min(i, last + 1), i, Min(next, last + 1));
  }

  /**
   * One iteration of the batch loop: the requests for `i` up to
   * `i + batchSize - 1`, not past `last`, are answered and processed.
   */
  method FetchBatch(at: Ledger, first: nat, i: nat, last: nat, batchSize: nat, from: string, to: string,
                    vouchers0: seq<VoucherSummary>, totalAmount0: int, dispatched0: nat, ghost batches0: seq<seq<nat>>)
    returns (vouchers: seq<VoucherSummary>, totalAmount: int, dispatched: nat, ghost batches: seq<seq<nat>>, next: nat)
    requires 1 <= first <= i <= last && batchSize >= 1
    requires BatchesSoFar(at, first, last, batchSize, from, to, i, vouchers0, totalAmount0, dispatched0, batches0)
    requires BatchSizes(batches0, batchSize)
    ensures dispatched == dispatched0 + Min(next, last + 1) - i && dispatched > dispatched0
    ensures batches == batches0 + [Range(i, Min(next, last + 1))]
    ensures vouchers == Collect(at, first, Min(next, last + 1), from, to)
    ensures totalAmount == Total(vouchers)
    ensures next == i + batchSize
    ensures BatchesSoFar(at, first, last, batchSize, from, to, next, vouchers, totalAmount, dispatched, batches)
    ensures BatchSizes(batches, batchSize)
  {
    var lote;
    ghost var numbers;
    lote, numbers := BuildBatch(at, i, last, batchSize);
    vouchers, totalAmount := ProcessBatch(lote, from, to, vouchers0, totalAmount0);
    dispatched := dispatched0 + |lote|;
    batches := batches0 + [numbers];
    next := i + batchSize;
    BatchStep(at, first, last, batchSize, from, to, i, next, lote, numbers, vouchers0, totalAmount0, dispatched0, batches0,
      vouchers, totalAmount, dispatched, batches);
    BatchSizesSnoc(batches0, numbers, batchSize);
  }

  /** A batch of 1 to `batchSize` numbers keeps every batch within bounds. */
  lemma BatchSizesSnoc(batches0: seq<seq<nat>>, numbers: seq<nat>, batchSize: nat)
    requires BatchSizes(batches0, batchSize) && 1 <= |numbers| <= batchSize
    ensures BatchSizes(batches0 + [numbers], batchSize)
  {
  }

  /** The scan so far followed by a batch's kept summaries is the scan through the batch of `size` numbers. */
  lemma ScanAfterBatch(at: Ledger, lote: seq<(nat, Probe)>, first: nat, i: nat, done: nat, hi: nat,
                       from: string, to: string, vouchers0: seq<VoucherSummary>, vouchers: seq<VoucherSummary>)
    requires first <= i == done && Batch(lote, at, i) && hi == i + |lote|
    requires vouchers0 == Collect(at, first, done, from, to) && vouchers == vouchers0 + KeptAll(lote, from, to)
    ensures vouchers == Collect(at, first, hi, from, to)
  {
    KeptAllIsScan(at, lote, first, i, from, to);
  }

  /** One more batch of consecutive numbers extends the flattened range. */
  lemma FlattenRange(batches: seq<seq<nat>>, numbers: seq<nat>, first: nat, i: nat, i': nat, j: nat)
    requires first <= i == i' <= j
    requires Flatten(batches) == Range(first, i) && numbers == Range(i', j)
    ensures Flatten(batches + [numbers]) == Range(first, j)
  {
    FlattenSnoc(batches, numbers);
    RangeAppend(first, i, j);
  }

  /** The `k`-th entry of the batch is number `i + k` with the ledger's answer for it. */
  predicate Batch(lote: seq<(nat, Probe)>, at: Ledger, i: nat)
  {
    forall k :: 0 <= k < |lote| ==> lote[k] == (i + k, at(i + k))
  }

  /** The requests of one batch, `i` up to `i + batchSize - 1` but not past `last`, answered in order. */
  method BuildBatch(at: Ledger, i: nat, last: nat, batchSize: nat) returns (lote: seq<(nat, Probe)>, ghost numbers: seq<nat>)
    requires 1 <= i <= last && batchSize >= 1
    ensures |lote| == Min(i + batchSize, last + 1) - i
    ensures Batch(lote, at, i)
    ensures numbers == Range(i, Min(i + batchSize, last + 1)) && |numbers| == |lote|
  {
    lote, numbers := [], [];
    var j := i;
    while j < i + batchSize && j <= last
      invariant i <= j <= Min(i + batchSize, last + 1)
      invariant |lote| == j - i && |numbers| == j - i
      invariant Batch(lote, at, i)
      invariant numbers == Range(i, j)
    {
      lote := lote + [(j, at(j))];
      numbers := numbers + [j];
      j := j + 1;
    }
  }

  /** The summaries a batch's answers yield, in order: one per dated, in-range record. */
  function KeptAll(lote: seq<(nat, Probe)>, from: string, to: string): seq<VoucherSummary>
  {
    if lote == [] then []
    else KeptAll(lote[..|lote| - 1], from, to) + KeptOne(lote[|lote| - 1].0, lote[|lote| - 1].1, from, to)
  }

  /** The answers for `i`, `i+1`, … yield the scan of those numbers. */
  lemma {:induction false} KeptAllIsScan(at: Ledger, lote: seq<(nat, Probe)>, first: nat, i: nat, from: string, to: string)
    requires first <= i
    requires Batch(lote, at, i)
    ensures Collect(at, first, i, from, to) + KeptAll(lote, from, to) == Collect(at, first, i + |lote|, from, to)
  {
    if lote == [] {
      assert Collect(at, first, i, from, to) + [] == Collect(at, first, i, from, to);
    } else {
      var init := lote[..|lote| - 1];
      var j := i + |init|;
      KeptAllIsScan(at, init, first, i, from, to);
      assert lote[|lote| - 1] == (j, at(j));
      CollectStep(at, first, j, from, to);
      assert KeptOne(j, at(j), from, to) == Kept(at, j, from, to);
      assert Collect(at, first, i, from, to) + KeptAll(lote, from, to)
        == (Collect(at, first, i, from, to) + KeptAll(init, from, to)) + Kept(at, j, from, to);
    }
  }

  /**
   * The processing of one batch's answers: each dated, in-range record is
   * summarised and its amount added, in the order of the answers.
   */
  method ProcessBatch(lote: seq<(nat, Probe)>, from: string, to: string,
                      vouchers0: seq<VoucherSummary>, totalAmount0: int)
    returns (vouchers: seq<VoucherSummary>, totalAmount: int)
    requires totalAmount0 == Total(vouchers0)
    ensures vouchers == vouchers0 + KeptAll(lote, from, to)
    ensures totalAmount == Total(vouchers)
  {
    vouchers, totalAmount := vouchers0, totalAmount0;
    var k := 0;
    while k < |lote|
      invariant 0 <= k <= |lote|
      invariant vouchers == vouchers0 + KeptAll(lote[..k], from, to)
      invariant totalAmount == Total(vouchers)
    {
      var number, probe := lote[k].0, lote[k].1;
      ghost var before := vouchers;
      if Keep(probe, from, to) {
        var summary := Summarize(number, probe.record.value);
        TotalSnoc(vouchers, summary);
        vouchers := vouchers + [summary];
        totalAmount := totalAmount + summary.impTotal;
      } else {
        assert vouchers == before + [];
      }
      KeptStep(lote, k, from, to, vouchers0, before, vouchers);
      k := k + 1;
    }
    assert lote[..k] == lote;
  }

  /** Processing answer `k` extends the kept prefix by that answer's summary, if any. */
  lemma KeptStep(lote: seq<(nat, Probe)>, k: nat, from: string, to: string,
                 vouchers0: seq<VoucherSummary>, before: seq<VoucherSummary>, after: seq<VoucherSummary>)
    requires k < |lote|
    requires before == vouchers0 + KeptAll(lote[..k], from, to)
    requires after == before + KeptOne(lote[k].0, lote[k].1, from, to)
    ensures after == vouchers0 + KeptAll(lote[..k + 1], from, to)
  {
    assert lote[..k + 1][..k] == lote[..k];
  }

  function Min(a: int, b: int): int { if a <= b then a else b }

  /**
   * Steps 2 and 3 of `execute`: classify the range by the last voucher's
   * date and search for the boundaries of the span to fetch.
   */
  method LocateSpan(at: Ledger, n: nat, from: string, to: string)
    returns (historico: bool, primer: nat, ultimo: nat, queries: nat)
    requires n >= 1
    ensures historico <==> Readable(at(n)) && Less(to, DateOf(at(n)))
    ensures !historico ==> ultimo == n
    ensures ultimo <= n && 1 <= primer <= n + 1
    ensures queries <= 1 + 2 * Bits(n)
    ensures primer <= ultimo ==> LessEq(from, DateOf(at(primer))) && Readable(at(primer))
    ensures historico && ultimo > 0 ==> LessEq(DateOf(at(ultimo)), to) && Readable(at(ultimo))
    ensures Ordered(at, n) ==> forall i :: 1 <= i <= n ==> (Keep(at(i), from, to) <==> primer <= i <= ultimo)
  {
    queries := 0;
    var fechaUltimo := "";
    var ultimoProbe := at(n);
    if ultimoProbe.Returned? {
      queries := queries + 1;
      fechaUltimo := DateOf(ultimoProbe);
    }
    historico := fechaUltimo != "" && Less(to, fechaUltimo);
    primer, ultimo := n + 1, 0;
    var q: nat;
    if historico {
      ultimo, q := FindLastOnOrBefore(at, n, to);
      queries := queries + q;
      if ultimo > 0 {
        var qb: nat;
        primer, qb := FindFirstOnOrAfter(at, ultimo, from, n + 1);
        queries := queries + qb;
        BitsMonotone(ultimo, n);
      }
    } else {
      primer, q := FindFirstOnOrAfter(at, n, from, n + 1);
      queries := queries + q;
      ultimo := n;
    }
    if Ordered(at, n) {
      assert fechaUltimo == DateOf(at(n));
      BoundariesExact(at, n, from, to, historico, primer, ultimo);
    }
  }

  /**
   * Under ordered dates the two strategies' boundaries delimit exactly the
   * kept numbers: none below `primer`, all of `primer..ultimo`, none above.
   */
  lemma BoundariesExact(at: Ledger, n: nat, from: string, to: string, historico: bool, primer: nat, ultimo: nat)
    requires n >= 1 && Ordered(at, n)
    requires historico == Less(to, DateOf(at(n)))
    requires historico ==>
      (&& ultimo <= n
       && (forall i :: 1 <= i <= n ==> (i <= ultimo <==> LessEq(DateOf(at(i)), to)))
       && (ultimo == 0 ==> primer == n + 1)
       && (ultimo > 0 ==>
             (&& (primer == n + 1 || 1 <= primer <= ultimo)
              && forall i :: 1 <= i <= ultimo ==> (primer <= i <==> LessEq(from, DateOf(at(i)))))))
    requires !historico ==>
      (&& ultimo == n
       && (primer == n + 1 || 1 <= primer <= n)
       && forall i :: 1 <= i <= n ==> (primer <= i <==> LessEq(from, DateOf(at(i)))))
    ensures forall i :: 1 <= i <= n ==> (Keep(at(i), from, to) <==> primer <= i <= ultimo)
  {
    if !historico {
      forall i | 1 <= i <= n ensures LessEq(DateOf(at(i)), to) {
        LessEqTransitive(DateOf(at(i)), DateOf(at(n)), to);
      }
    }
  }

  /** The counters add up: the last-number call (or the fallback's estimate), the searches and the batches. */
  predicate Accounted(r: Response, lastVoucher: Option<nat>, n: nat)
  {
    && r.performance.totalQueries
      == (if lastVoucher.Some? then 1 else FallbackQueryEstimate)
        + r.performance.binarySearchQueries + r.performance.batchQueries
    && r.performance.binarySearchQueries <= 1 + 2 * Bits(n)
  }

  /**
   * What holds of every answer, ordered ledger or not: a refusal comes
   * from the cap, before any batch, for a span larger than the cap; a
   * report lists at most one summary per dispatched query, each a kept
   * record of 1..n, in increasing order.
   */
  ghost predicate Sound(r: Response, p: Schema.Params, n: nat, at: Ledger)
  {
    && (r.Failed? ==>
          && r.performance.batchQueries == 0
          && r.failure.TooManyVouchers?
          && exists span: nat :: p.maxVouchers < span <= n && r.failure.message == CapMessage(span, p.maxVouchers))
    && (r.Found? ==>
          && r.performance.batchQueries <= p.maxVouchers
          && (exists vs: seq<VoucherSummary> ::
                && Increasing(vs)
                && Drawn(vs, at, 1, n + 1, p.fechaDesde, p.fechaHasta)
                && |vs| <= r.performance.batchQueries
                && r == Report(vs, p.fechaDesde, p.fechaHasta, p.includeDetails, r.performance)))
  }

  /**
   * On a ledger whose dates do not decrease, the answer is exactly the
   * plain scan of 1..n: refused iff that scan exceeds the cap, reported
   * in full otherwise.
   */
  ghost predicate Exact(r: Response, p: Schema.Params, n: nat, at: Ledger)
  {
    var all := Collect(at, 1, n + 1, p.fechaDesde, p.fechaHasta);
    && (r.Failed? <==> |all| > p.maxVouchers)
    && (r.Failed? ==> r.failure == TooManyVouchers(CapMessage(|all|, p.maxVouchers)))
    && (r.Found? ==> r == Report(all, p.fechaDesde, p.fechaHasta, p.includeDetails, r.performance))
  }

  /**
   * `execute`: validate the arguments, then run the locator. `lastVoucher`
   * is the ledger's last-number answer (`None` when that call threw); `at`
   * answers the per-number queries.
   */
  method Execute(raw: Schema.RawParams, lastVoucher: Option<nat>, at: Ledger) returns (r: Response)
    ensures Schema.Parse(raw).Failure? ==>
      r == Failed(InvalidParams(Schema.Parse(raw).error), Performance(0, 0, 0))
    ensures Schema.Parse(raw).Success? ==>
      var p, n := Schema.Parse(raw).value, LatestNumber(lastVoucher, at);
      && Accounted(r, lastVoucher, n)
      && Sound(r, p, n, at)
      && (n == 0 ==> r == CreateEmptyResult(p.fechaDesde, p.fechaHasta, r.performance))
      && (Ordered(at, n) ==> Exact(r, p, n, at))
  {
    match Schema.Parse(raw)
    case Failure(issues) =>
      r := Failed(InvalidParams(issues), Performance(0, 0, 0));
    case Success(p) =>
      r := Run(p, lastVoucher, at);
  }

  /**
   * The body of `execute` once the arguments are valid, step 1: the last
   * authorised number, from the ledger or from the fallback search.
   */
  method Run(p: Schema.Params, lastVoucher: Option<nat>, at: Ledger) returns (r: Response)
    requires Schema.Valid(p)
    ensures Accounted(r, lastVoucher, LatestNumber(lastVoucher, at))
    ensures Sound(r, p, LatestNumber(lastVoucher, at), at)
    ensures LatestNumber(lastVoucher, at) == 0 ==> r == CreateEmptyResult(p.fechaDesde, p.fechaHasta, r.performance)
    ensures Ordered(at, LatestNumber(lastVoucher, at)) ==> Exact(r, p, LatestNumber(lastVoucher, at), at)
  {
    var totalQueries := 0;
    var ultimoNro: nat;
    if lastVoucher.Some? {
      totalQueries := totalQueries + 1;
      ultimoNro := lastVoucher.value;
    } else {
      ultimoNro := FindLastVoucherBySearch(at);
      totalQueries := totalQueries + FallbackQueryEstimate;
    }
    if ultimoNro == 0 {
      r := CreateEmptyResult(p.fechaDesde, p.fechaHasta, Performance(totalQueries, 0, 0));
      EmptyIsSound(r, p, ultimoNro, at);
      assert Collect(at, 1, 1, p.fechaDesde, p.fechaHasta) == [];
    } else {
      ghost var primer, ultimo;
      r, primer, ultimo := Locate(p, ultimoNro, at, totalQueries);
    }
  }

  /** The empty answer is a sound report of nothing. */
  lemma EmptyIsSound(r: Response, p: Schema.Params, n: nat, at: Ledger)
    requires r == CreateEmptyResult(p.fechaDesde, p.fechaHasta, r.performance)
    requires r.performance.batchQueries == 0 && Schema.Valid(p)
    ensures Sound(r, p, n, at)
  {
    var none: seq<VoucherSummary> := [];
    assert r == Report(none, p.fechaDesde, p.fechaHasta, p.includeDetails, r.performance);
    assert Increasing(none) && Drawn(none, at, 1, n + 1, p.fechaDesde, p.fechaHasta);
  }

  /** An empty span's empty answer is sound, and exact when the span's boundaries are exact. */
  lemma EmptySpanAnswer(r: Response, p: Schema.Params, n: nat, at: Ledger, primer: nat, ultimo: nat)
    requires r == CreateEmptyResult(p.fechaDesde, p.fechaHasta, r.performance)
    requires r.performance.batchQueries == 0 && Schema.Valid(p)
    requires primer > ultimo
    requires Ordered(at, n) ==>
      forall i :: 1 <= i <= n ==> (Keep(at(i), p.fechaDesde, p.fechaHasta) <==> primer <= i <= ultimo)
    ensures Sound(r, p, n, at)
    ensures Ordered(at, n) ==> Exact(r, p, n, at)
  {
    EmptyIsSound(r, p, n, at);
    if Ordered(at, n) {
      CollectNone(at, 1, n + 1, p.fechaDesde, p.fechaHasta);
    }
  }

  /** Steps 2 and 3: the strategy and the span's boundaries, or the empty answer when the span is empty. */
  method Locate(p: Schema.Params, n: nat, at: Ledger, spent: nat)
    returns (r: Response, ghost primerEnRango: nat, ghost ultimoEnRango: nat)
    requires Schema.Valid(p) && n >= 1
    ensures r.performance.totalQueries == spent + r.performance.binarySearchQueries + r.performance.batchQueries
    ensures r.performance.binarySearchQueries <= 1 + 2 * Bits(n)
    ensures ultimoEnRango <= n && 1 <= primerEnRango <= n + 1
    ensures primerEnRango <= ultimoEnRango ==>
      LessEq(p.fechaDesde, DateOf(at(primerEnRango))) && Readable(at(primerEnRango))
    ensures primerEnRango > ultimoEnRango ==>
      r == CreateEmptyResult(p.fechaDesde, p.fechaHasta, r.performance) && r.performance.batchQueries == 0
    ensures primerEnRango <= ultimoEnRango ==>
      var span := ultimoEnRango - primerEnRango + 1;
      && (r.Failed? <==> span > p.maxVouchers)
      && (r.Failed? ==> r.failure == TooManyVouchers(CapMessage(span, p.maxVouchers)) && r.performance.batchQueries == 0)
      && (r.Found? ==> r.performance.batchQueries == span)
      && (r.Found? ==>
            r == Report(Collect(at, primerEnRango, ultimoEnRango + 1, p.fechaDesde, p.fechaHasta),
                        p.fechaDesde, p.fechaHasta, p.includeDetails, r.performance))
    ensures Sound(r, p, n, at)
    ensures Ordered(at, n) ==> Exact(r, p, n, at)
  {
    var historico, primer, ultimo, q := LocateSpan(at, n, p.fechaDesde, p.fechaHasta);
    primerEnRango, ultimoEnRango := primer, ultimo;
    if primer > ultimo || primer > n {
      r := CreateEmptyResult(p.fechaDesde, p.fechaHasta, Performance(spent + q, q, 0));
      EmptySpanAnswer(r, p, n, at, primer, ultimo);
    } else {
      r := Deliver(p, n, at, primer, ultimo, spent + q, q);
    }
  }

  /** Steps 4 to 6: the safety cap, the batches and the report, for a non-empty span. */
  method Deliver(p: Schema.Params, n: nat, at: Ledger, primer: nat, ultimo: nat, spent: nat, searched: nat)
    returns (r: Response)
    requires Schema.Valid(p)
    requires 1 <= primer <= ultimo <= n
    requires Ordered(at, n) ==>
      forall i :: 1 <= i <= n ==> (Keep(at(i), p.fechaDesde, p.fechaHasta) <==> primer <= i <= ultimo)
    ensures r.performance.totalQueries == spent + r.performance.batchQueries
    ensures r.performance.binarySearchQueries == searched
    ensures r.Failed? <==> ultimo - primer + 1 > p.maxVouchers
    ensures r.Failed? ==>
      r == Failed(TooManyVouchers(CapMessage(ultimo - primer + 1, p.maxVouchers)), Performance(spent, searched, 0))
    ensures r.Found? ==> r.performance.batchQueries == ultimo - primer + 1
    ensures r.Found? ==>
      r == Report(Collect(at, primer, ultimo + 1, p.fechaDesde, p.fechaHasta),
                  p.fechaDesde, p.fechaHasta, p.includeDetails, r.performance)
    ensures Sound(r, p, n, at)
    ensures Ordered(at, n) ==> Exact(r, p, n, at)
  {
    if Ordered(at, n) {
      SpanIsAll(at, n, p.fechaDesde, p.fechaHasta, primer, ultimo);
    }
    var rangoTotal := ultimo - primer + 1;
    if rangoTotal > p.maxVouchers {
      r := Failed(TooManyVouchers(CapMessage(rangoTotal, p.maxVouchers)), Performance(spent, searched, 0));
      return;
    }
    var vouchers, totalAmount, dispatched;
    ghost var batches;
    vouchers, totalAmount, dispatched, batches :=
      FetchInBatches(at, primer, ultimo, p.batchSize, p.fechaDesde, p.fechaHasta);
    // Sorting by number leaves the already increasing list as it is (SortKeepsIncreasing).
    r := Report(vouchers, p.fechaDesde, p.fechaHasta, p.includeDetails,
      Performance(spent + dispatched, searched, dispatched));
    SpanSound(at, n, primer, ultimo, p.fechaDesde, p.fechaHasta);
    assert Increasing(vouchers) && Drawn(vouchers, at, 1, n + 1, p.fechaDesde, p.fechaHasta);
  }

  /** The scan of a span inside 1..n is increasing, drawn from 1..n, at most one per number. */
  lemma SpanSound(at: Ledger, n: nat, primer: nat, ultimo: nat, from: string, to: string)
    requires 1 <= primer <= ultimo <= n
    ensures var vs := Collect(at, primer, ultimo + 1, from, to);
      && Increasing(vs) && Drawn(vs, at, 1, n + 1, from, to) && |vs| <= ultimo - primer + 1
  {
    CollectSound(at, primer, ultimo + 1, from, to);
    DrawnWiden(Collect(at, primer, ultimo + 1, from, to), at, primer, ultimo + 1, 1, n + 1, from, to);
  }

  /** A summary drawn from a sub-range is drawn from the enclosing range. */
  lemma DrawnWiden(vs: seq<VoucherSummary>, at: Ledger, lo: nat, hi: nat, lo': nat, hi': nat, from: string, to: string)
    requires Drawn(vs, at, lo, hi, from, to) && lo' <= lo && hi <= hi'
    ensures Drawn(vs, at, lo', hi', from, to)
  {
  }

  /** The kept numbers of 1..n are exactly `primer..ultimo`. */
  predicate KeptExactly(at: Ledger, n: nat, from: string, to: string, primer: nat, ultimo: nat)
  {
    forall i :: 1 <= i <= n ==> (Keep(at(i), from, to) <==> primer <= i <= ultimo)
  }

  /** When the kept numbers of 1..n are exactly `primer..ultimo`, the full scan is the scan of the span. */
  lemma SpanIsAll(at: Ledger, n: nat, from: string, to: string, primer: nat, ultimo: nat)
    requires 1 <= primer <= ultimo <= n
    requires KeptExactly(at, n, from, to, primer, ultimo)
    ensures Collect(at, 1, n + 1, from, to) == Collect(at, primer, ultimo + 1, from, to)
    ensures |Collect(at, 1, n + 1, from, to)| == ultimo - primer + 1
  {
    SpanParts(at, n, from, to, primer, ultimo);
    ScanAroundSpan(at, 1, primer, ultimo + 1, n + 1, from, to);
  }

  /** A scan whose numbers before `mid` and from `mid'` on yield nothing is the scan of `mid..mid'-1`. */
  lemma ScanAroundSpan(at: Ledger, lo: nat, mid: nat, mid': nat, hi: nat, from: string, to: string)
    requires lo <= mid <= mid' <= hi
    requires Collect(at, lo, mid, from, to) == [] && Collect(at, mid', hi, from, to) == []
    ensures Collect(at, lo, hi, from, to) == Collect(at, mid, mid', from, to)
  {
    CollectSplit(at, lo, mid, hi, from, to);
    CollectSplit(at, mid, mid', hi, from, to);
    EmptyAround(Collect(at, lo, mid, from, to), Collect(at, mid, mid', from, to),
      Collect(at, mid', hi, from, to), Collect(at, mid, hi, from, to), Collect(at, lo, hi, from, to));
  }

  /** A list made of an empty part, a middle and another empty part is its middle. */
  lemma EmptyAround(before: seq<VoucherSummary>, span: seq<VoucherSummary>, after: seq<VoucherSummary>,
                    tail: seq<VoucherSummary>, whole: seq<VoucherSummary>)
    requires before == [] && after == []
    requires tail == span + after && whole == before + tail
    ensures whole == span
  {
    assert tail == span;
  }

  /** Under the same hypothesis: the numbers before and after the span yield nothing, the span one summary each. */
  lemma SpanParts(at: Ledger, n: nat, from: string, to: string, primer: nat, ultimo: nat)
    requires 1 <= primer <= ultimo <= n
    requires KeptExactly(at, n, from, to, primer, ultimo)
    ensures Collect(at, 1, primer, from, to) == []
    ensures Collect(at, ultimo + 1, n + 1, from, to) == []
    ensures |Collect(at, primer, ultimo + 1, from, to)| == ultimo - primer + 1
  {
    CollectNone(at, 1, primer, from, to);
    CollectNone(at, ultimo + 1, n + 1, from, to);
    CollectAll(at, primer, ultimo + 1, from, to);
  }
}
