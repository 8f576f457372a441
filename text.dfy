/**
 * String operations that the tools rely on, stated the way JavaScript defines
 * them: digit strings (`/^\d{n}$/`), string comparison with `<` and `<=`,
 * `String(n)` for non-negative integers, `padStart`, `trim`, `toUpperCase`,
 * `replace` with a global pattern, and `split`/`join`.
 */
module Text {

  // ---------------------------------------------------------------------------
  // Digits
  // ---------------------------------------------------------------------------

  predicate IsDigit(c: char) { '0' <= c <= '9' }

  predicate AllDigits(s: string) { forall i :: 0 <= i < |s| ==> IsDigit(s[i]) }

  /** The regular expression `/^\d{n}$/`: exactly `n` ASCII digits. */
  predicate IsDigits(s: string, n: nat) { |s| == n && AllDigits(s) }

  /** The regular expression `/^\d+$/`. */
  predicate IsDigitRun(s: string) { |s| > 0 && AllDigits(s) }

  function DigitValue(c: char): nat
    requires IsDigit(c)
  {
    c as int - '0' as int
  }

  function DigitChar(d: nat): (c: char)
    requires d < 10
    ensures IsDigit(c) && DigitValue(c) == d
  {
    ('0' as int + d) as char
  }

  function Pow10(k: nat): (r: nat)
    ensures r >= 1
  {
    if k == 0 then 1 else 10 * Pow10(k - 1)
  }

  /** The number a digit string denotes, read from the most significant digit. */
  function Value(s: string): nat
    requires AllDigits(s)
  {
    if s == [] then 0 else DigitValue(s[0]) * Pow10(|s| - 1) + Value(s[1..])
  }

  /** A digit string of length k denotes a number below 10^k. */
  lemma {:induction false} ValueBound(s: string)
    requires AllDigits(s)
    ensures Value(s) < Pow10(|s|)
  {
    if s != [] {
      ValueBound(s[1..]);
      var d, p, r := DigitValue(s[0]), Pow10(|s| - 1), Value(s[1..]);
      assert Value(s) == d * p + r;
      MulMonotone(d, 9, p);
      assert Pow10(|s|) == 10 * p;
    }
  }

  /** Appending a digit multiplies by ten and adds it. */
  lemma {:induction false} ValueSnoc(s: string, c: char)
    requires AllDigits(s) && IsDigit(c)
    ensures AllDigits(s + [c])
    ensures Value(s + [c]) == 10 * Value(s) + DigitValue(c)
  {
    var t := s + [c];
    if s == [] {
      assert t == [c];
      assert t[1..] == [];
    } else {
      assert t[0] == s[0];
      assert t[1..] == s[1..] + [c];
      ValueSnoc(s[1..], c);
      var d, p, v := DigitValue(s[0]), Pow10(|s| - 1), Value(s[1..]);
      assert Value(t) == d * Pow10(|s|) + (10 * v + DigitValue(c));
      TenfoldLead(d, p);
    }
  }

  /** A leading digit one place further left is worth ten times as much. */
  lemma TenfoldLead(d: nat, p: nat)
    ensures d * (10 * p) == 10 * (d * p)
  {
  }

  // ---------------------------------------------------------------------------
  // String comparison (JavaScript `<` and `<=` on strings)
  // ---------------------------------------------------------------------------

  /** `a < b` on strings: lexicographic order on characters; a proper prefix is smaller. */
  predicate Less(a: string, b: string)
    decreases |a|
  {
    if a == [] then b != []
    else if b == [] then false
    else if a[0] == b[0] then Less(a[1..], b[1..])
    else a[0] < b[0]
  }

  /** `a <= b` on strings, which JavaScript evaluates as `!(b < a)`. */
  predicate LessEq(a: string, b: string) { !Less(b, a) }

  lemma {:induction false} LessIrreflexive(a: string)
    ensures !Less(a, a)
  {
    if a != [] { LessIrreflexive(a[1..]); }
  }

  /** String `<` is a strict total order: exactly one of a < b, a == b, b < a. */
  lemma {:induction false} LessTrichotomy(a: string, b: string)
    ensures Less(a, b) || a == b || Less(b, a)
    ensures !(Less(a, b) && Less(b, a))
  {
    if a != [] && b != [] && a[0] == b[0] {
      LessTrichotomy(a[1..], b[1..]);
      if a[1..] == b[1..] {
        assert a == [a[0]] + a[1..] && b == [b[0]] + b[1..];
      }
    }
  }

  lemma {:induction false} LessTransitive(a: string, b: string, c: string)
    requires Less(a, b) && Less(b, c)
    ensures Less(a, c)
  {
    if a != [] && b != [] && c != [] && a[0] == b[0] && b[0] == c[0] {
      LessTransitive(a[1..], b[1..], c[1..]);
    }
  }

  /** `<=` is transitive. */
  lemma LessEqTransitive(a: string, b: string, c: string)
    requires LessEq(a, b) && LessEq(b, c)
    ensures LessEq(a, c)
  {
    LessTrichotomy(a, b);
    if Less(c, a) && Less(a, b) { LessTransitive(c, a, b); }
  }

  /** `a < b` and `b <= c` give `a < c`. */
  lemma LessLessEq(a: string, b: string, c: string)
    requires Less(a, b) && LessEq(b, c)
    ensures Less(a, c)
  {
    LessTrichotomy(b, c);
    if b != c { LessTransitive(a, b, c); }
  }

  /** `a <= b` and `b < c` give `a < c`. */
  lemma LessEqLess(a: string, b: string, c: string)
    requires LessEq(a, b) && Less(b, c)
    ensures Less(a, c)
  {
    LessTrichotomy(a, b);
    if a != b { LessTransitive(a, b, c); }
  }

  /**
   * For two digit strings of the same length (dates written as `YYYYMMDD`),
   * JavaScript's string comparison agrees with the order of the numbers.
   */
  lemma {:induction false} LexOrderIsNumericOrder(a: string, b: string)
    requires AllDigits(a) && AllDigits(b) && |a| == |b|
    ensures Less(a, b) <==> Value(a) < Value(b)
    ensures a == b <==> Value(a) == Value(b)
  {
    if a != [] {
      LexOrderIsNumericOrder(a[1..], b[1..]);
      if a[0] == b[0] {
        if a[1..] == b[1..] { assert a == [a[0]] + a[1..] && b == [b[0]] + b[1..]; }
      } else if a[0] < b[0] {
        LeadingDigitDecides(a, b);
      } else {
        LeadingDigitDecides(b, a);
      }
    }
  }

  /** A smaller leading digit makes the smaller number, whatever follows. */
  lemma LeadingDigitDecides(a: string, b: string)
    requires AllDigits(a) && AllDigits(b) && |a| == |b| && a != []
    requires a[0] < b[0]
    ensures Value(a) < Value(b)
  {
    var p := Pow10(|a| - 1);
    var da, db := DigitValue(a[0]), DigitValue(b[0]);
    var ra, rb := Value(a[1..]), Value(b[1..]);
    ValueBound(a[1..]);
    assert Value(a) == da * p + ra;
    assert Value(b) == db * p + rb;
    LeadingTermDecides(da, db, p, ra, rb);
  }

  /** With a remainder below the place value, the larger leading digit wins. */
  lemma LeadingTermDecides(da: nat, db: nat, p: nat, ra: nat, rb: nat)
    requires da < db && ra < p
    ensures da * p + ra < db * p + rb
  {
    MulMonotone(da + 1, db, p);
    Distribute(da, p);
  }

  lemma Distribute(x: nat, p: nat)
    ensures (x + 1) * p == x * p + p
  {
  }

  lemma MulMonotone(x: nat, y: nat, p: nat)
    requires x <= y
    ensures x * p <= y * p
  {
  }

  // ---------------------------------------------------------------------------
  // String(n) for non-negative integers
  // ---------------------------------------------------------------------------

  /** `String(n)` for an integer `n >= 0`: its decimal digits, no leading zero. */
  function NatToString(n: nat): (s: string)
    ensures |s| >= 1 && AllDigits(s)
  {
    if n < 10 then [DigitChar(n)] else NatToString(n / 10) + [DigitChar(n % 10)]
  }

  /** `String(n)` reads back as `n`, and its length is the number of decimal digits of `n`. */
  lemma {:induction false} NatToStringValue(n: nat)
    ensures Value(NatToString(n)) == n
    ensures n < Pow10(|NatToString(n)|)
    ensures n >= Pow10(|NatToString(n)| - 1) || n == 0
    ensures NatToString(n)[0] != '0' || n == 0
  {
    var s := NatToString(n);
    if n < 10 {
      assert s[1..] == [];
    } else {
      var p := NatToString(n / 10);
      NatToStringValue(n / 10);
      ValueSnoc(p, DigitChar(n % 10));
      assert s[0] == p[0];
    }
  }

  /** `String(n)` is a run of digits that reads back as `n`. */
  lemma NatToStringReads(n: nat)
    ensures IsDigitRun(NatToString(n)) && Value(NatToString(n)) == n
  {
    NatToStringValue(n);
  }

  /** `String(n)` has exactly k digits iff 10^(k-1) <= n < 10^k (k >= 2), as the 11-digit CUIT checks rely on. */
  lemma NatToStringLength(n: nat, k: nat)
    requires k >= 2
    ensures |NatToString(n)| == k <==> Pow10(k - 1) <= n < Pow10(k)
  {
    NatToStringValue(n);
    var m := |NatToString(n)|;
    if m < k { Pow10Monotone(m, k - 1); }
    if m > k { Pow10Monotone(k, m - 1); }
  }

  lemma {:induction false} Pow10Monotone(i: nat, j: nat)
    requires i <= j
    ensures Pow10(i) <= Pow10(j)
  {
    if i < j { Pow10Monotone(i, j - 1); }
  }

  // ---------------------------------------------------------------------------
  // padStart, trim, toUpperCase
  // ---------------------------------------------------------------------------

  function Repeat(c: char, k: nat): (r: string)
    ensures |r| == k && forall i :: 0 <= i < k ==> r[i] == c
  {
    if k == 0 then [] else [c] + Repeat(c, k - 1)
  }

  /** `s.padStart(n, c)` with a one-character pad. */
  function PadStart(s: string, n: nat, c: char): (r: string)
    ensures |s| >= n ==> r == s
    ensures |s| < n ==> |r| == n
    ensures |r| >= |s| && r[|r| - |s|..] == s
    ensures forall i :: 0 <= i < |r| - |s| ==> r[i] == c
  {
    if |s| >= n then s else Repeat(c, n - |s|) + s
  }

  /** Leading zeros do not change the number a digit string denotes. */
  lemma {:induction false} LeadingZerosKeepValue(k: nat, s: string)
    requires AllDigits(s)
    ensures AllDigits(Repeat('0', k) + s)
    ensures Value(Repeat('0', k) + s) == Value(s)
  {
    var t := Repeat('0', k) + s;
    assert forall i :: 0 <= i < |t| ==> t[i] == (if i < k then '0' else s[i - k]);
    if k > 0 {
      LeadingZerosKeepValue(k - 1, s);
      assert t[1..] == Repeat('0', k - 1) + s;
      var p := Pow10(|t| - 1);
      assert DigitValue(t[0]) == 0;
      assert Value(t) == 0 * p + Value(t[1..]);
      assert Value(t) == Value(s);
    } else {
      assert t == s;
    }
  }

  /** The characters ECMAScript treats as white space or line terminators (`\s`, `trim`). */
  predicate IsJsWhitespace(c: char)
  {
    c == '\t' || c == '\n' || c == '\U{000B}' || c == '\U{000C}' || c == '\r' || c == ' '
    || c == '\U{00A0}' || c == '\U{1680}' || ('\U{2000}' <= c <= '\U{200A}')
    || c == '\U{2028}' || c == '\U{2029}' || c == '\U{202F}' || c == '\U{205F}'
    || c == '\U{3000}' || c == '\U{FEFF}'
  }

  function TrimStart(s: string): (r: string)
    ensures |r| <= |s| && r == s[|s| - |r|..]
    ensures r == [] || !IsJsWhitespace(r[0])
  {
    if s != [] && IsJsWhitespace(s[0]) then TrimStart(s[1..]) else s
  }

  function TrimEnd(s: string): (r: string)
    ensures |r| <= |s| && r == s[..|r|]
    ensures r == [] || !IsJsWhitespace(r[|r| - 1])
  {
    if s != [] && IsJsWhitespace(s[|s| - 1]) then TrimEnd(s[..|s| - 1]) else s
  }

  /** `s.slice(i, j)` for indices that are not negative: both are clamped to the length. */
  function Slice(s: string, i: nat, j: nat): (r: string)
    ensures i <= j <= |s| ==> r == s[i..j]
    ensures |r| <= |s|
  {
    var a := if i < |s| then i else |s|;
    var b := if j < |s| then j else |s|;
    if a < b then s[a..b] else []
  }

  /** `s.trim()`. */
  function Trim(s: string): string { TrimEnd(TrimStart(s)) }

  /** A string with no white space at either end is its own trim. */
  lemma TrimNoop(s: string)
    requires s == [] || (!IsJsWhitespace(s[0]) && !IsJsWhitespace(s[|s| - 1]))
    ensures Trim(s) == s
  {
  }

  /** A text that neither starts nor ends with white space, padded with one space on each side, trims back to itself. */
  lemma TrimSpaced(d: string)
    requires d != [] && !IsJsWhitespace(d[0]) && !IsJsWhitespace(d[|d| - 1])
    ensures Trim(" " + d + " ") == d
  {
    var s := " " + d + " ";
    assert s[1..] == d + " ";
    assert TrimStart(s) == d + " ";
    assert (d + " ")[..|d|] == d;
    assert TrimEnd(d + " ") == TrimEnd(d);
  }

  /** Trimming twice trims no more than once. */
  lemma TrimIdempotent(s: string)
    ensures Trim(Trim(s)) == Trim(s)
  {
    var t := Trim(s);
    if t != [] {
      assert t[0] == TrimStart(s)[0];
    }
    TrimNoop(t);
  }

  function ToUpperChar(c: char): char
  {
    if 'a' <= c <= 'z' then (c as int - 32) as char else c
  }

  /** `s.toUpperCase()` restricted to the ASCII letters. */
  function ToUpper(s: string): (r: string)
    ensures |r| == |s| && forall i :: 0 <= i < |s| ==> r[i] == ToUpperChar(s[i])
  {
    if s == [] then [] else [ToUpperChar(s[0])] + ToUpper(s[1..])
  }

  predicate IsUpperLetter(c: char) { 'A' <= c <= 'Z' }

  // ---------------------------------------------------------------------------
  // Global replacement and split/join
  // ---------------------------------------------------------------------------

  /** `s.replace(/c/g, rep)` for a single-character pattern. */
  function ReplaceChar(s: string, c: char, rep: string): (r: string)
    ensures c !in s ==> r == s
  {
    if s == [] then [] else (if s[0] == c then rep else [s[0]]) + ReplaceChar(s[1..], c, rep)
  }

  /** Replacing `c` by a text without `c` leaves no `c`, and introduces no new character. */
  lemma {:induction false} ReplaceCharRemoves(s: string, c: char, rep: string, d: char)
    requires c !in rep
    ensures c !in ReplaceChar(s, c, rep)
    ensures d in ReplaceChar(s, c, rep) ==> d in s || d in rep
  {
    if s != [] { ReplaceCharRemoves(s[1..], c, rep, d); }
  }

  /** Replacing characters works piece by piece. */
  lemma {:induction false} ReplaceCharAppend(a: string, b: string, c: char, rep: string)
    ensures ReplaceChar(a + b, c, rep) == ReplaceChar(a, c, rep) + ReplaceChar(b, c, rep)
  {
    if a == [] {
      assert a + b == b;
    } else {
      assert (a + b)[0] == a[0] && (a + b)[1..] == a[1..] + b;
      ReplaceCharAppend(a[1..], b, c, rep);
    }
  }

  /** Every character for which `keep` holds, in order: `s.replace(/[^…]/g, "")`. */
  function Filter(s: string, keep: char -> bool): (r: string)
    ensures |r| <= |s|
    ensures forall i :: 0 <= i < |r| ==> keep(r[i])
    ensures (forall i :: 0 <= i < |s| ==> keep(s[i])) ==> r == s
  {
    if s == [] then [] else (if keep(s[0]) then [s[0]] else []) + Filter(s[1..], keep)
  }

  /** Filtering drops no character it should keep. */
  lemma {:induction false} FilterKeepsAll(s: string, keep: char -> bool, c: char)
    requires c in s && keep(c)
    ensures c in Filter(s, keep)
  {
    if s[0] != c {
      FilterKeepsAll(s[1..], keep, c);
    }
  }

  /** Filtering works piece by piece. */
  lemma {:induction false} FilterAppend(a: string, b: string, keep: char -> bool)
    ensures Filter(a + b, keep) == Filter(a, keep) + Filter(b, keep)
  {
    if a == [] {
      assert a + b == b;
    } else {
      assert (a + b)[0] == a[0] && (a + b)[1..] == a[1..] + b;
      FilterAppend(a[1..], b, keep);
    }
  }

  predicate StartsWith(s: string, p: string) { |p| <= |s| && s[..|p|] == p }

  /** `t` occurs in `s`. */
  predicate Contains(s: string, t: string)
  {
    exists j :: 0 <= j <= |s| - |t| && OccursAt(s, t, j)
  }

  /** `t` occurs in `s` at position `j`. */
  predicate OccursAt(s: string, t: string, j: int)
  {
    0 <= j <= |s| - |t| && s[j..j + |t|] == t
  }

  /** A text found in one part is found in the whole. */
  lemma ContainsAppend(a: string, b: string, t: string)
    ensures Contains(a, t) ==> Contains(a + b, t)
    ensures Contains(b, t) ==> Contains(a + b, t)
  {
    if Contains(a, t) {
      var j :| 0 <= j <= |a| - |t| && OccursAt(a, t, j);
      assert (a + b)[j..j + |t|] == a[j..j + |t|];
      assert OccursAt(a + b, t, j);
    }
    if Contains(b, t) {
      var j :| 0 <= j <= |b| - |t| && OccursAt(b, t, j);
      assert (a + b)[|a| + j..|a| + j + |t|] == b[j..j + |t|];
      assert OccursAt(a + b, t, |a| + j);
    }
  }

  /** Every text contains itself. */
  lemma ContainsSelf(t: string)
    ensures Contains(t, t)
  {
    assert t[0..|t|] == t;
    assert OccursAt(t, t, 0);
  }

  /** `s.split(sep)` for a non-empty separator. */
  function Split(s: string, sep: string): (parts: seq<string>)
    requires |sep| > 0
    ensures |parts| >= 1
    decreases |s|
  {
    if StartsWith(s, sep) then [""] + Split(s[|sep|..], sep)
    else if s == [] then [""]
    else
      var rest := Split(s[1..], sep);
      [[s[0]] + rest[0]] + rest[1..]
  }

  /** `parts.join(sep)`. */
  function Join(parts: seq<string>, sep: string): string
  {
    if |parts| == 0 then ""
    else if |parts| == 1 then parts[0]
    else parts[0] + sep + Join(parts[1..], sep)
  }

  /** A joined list opens with its first part. */
  lemma JoinStartsWithFirst(parts: seq<string>, sep: string)
    requires |parts| >= 1
    ensures |Join(parts, sep)| >= |parts[0]| && Join(parts, sep)[..|parts[0]|] == parts[0]
  {
    if |parts| > 1 {
      assert (parts[0] + sep + Join(parts[1..], sep))[..|parts[0]|] == parts[0];
    }
  }

  /** A text found in one part of a joined list is found in the joined text. */
  lemma {:induction false} JoinContains(parts: seq<string>, sep: string, i: nat, t: string)
    requires i < |parts| && Contains(parts[i], t)
    ensures Contains(Join(parts, sep), t)
  {
    if |parts| > 1 {
      var rest := Join(parts[1..], sep);
      if i == 0 {
        ContainsAppend(parts[0], sep, t);
      } else {
        assert parts[1..][i - 1] == parts[i];
        JoinContains(parts[1..], sep, i - 1, t);
      }
      ContainsAppend(parts[0] + sep, rest, t);
    }
  }

  /** `s.split(pat).join(rep)`: every occurrence of `pat`, scanning left to right, becomes `rep`. */
  function ReplaceAll(s: string, pat: string, rep: string): string
    requires |pat| > 0
  {
    Join(Split(s, pat), rep)
  }

  lemma JoinCons(c: char, parts: seq<string>, sep: string)
    requires |parts| >= 1
    ensures Join([[c] + parts[0]] + parts[1..], sep) == [c] + Join(parts, sep)
  {
    var q := [[c] + parts[0]] + parts[1..];
    if |parts| > 1 {
      assert q[1..] == parts[1..];
    }
  }

  /** Splitting at `sep` and joining with `sep` gives back the original text. */
  lemma {:induction false} JoinSplit(s: string, sep: string)
    requires |sep| > 0
    ensures Join(Split(s, sep), sep) == s
    decreases |s|
  {
    if StartsWith(s, sep) {
      JoinSplit(s[|sep|..], sep);
      var parts := Split(s, sep);
      assert parts[1..] == Split(s[|sep|..], sep);
      assert s == sep + s[|sep|..];
    } else if s != [] {
      var rest := Split(s[1..], sep);
      JoinSplit(s[1..], sep);
      JoinCons(s[0], rest, sep);
      assert s == [s[0]] + s[1..];
    }
  }

  /** The first piece of a split is a prefix of the text that does not start with `sep`, unless empty. */
  lemma {:induction false} SplitHeadPrefix(s: string, sep: string)
    requires |sep| > 0
    ensures StartsWith(s, Split(s, sep)[0])
    ensures Split(s, sep)[0] != [] ==> !StartsWith(s, sep)
    decreases |s|
  {
    if !StartsWith(s, sep) && s != [] {
      SplitHeadPrefix(s[1..], sep);
      var h := Split(s[1..], sep)[0];
      assert s[..1 + |h|] == [s[0]] + s[1..][..|h|];
    }
  }

  lemma StartsWithPrefix(s: string, h: string, sep: string)
    requires StartsWith(s, h) && StartsWith(h, sep)
    ensures StartsWith(s, sep)
  {
    assert s[..|sep|] == h[..|sep|];
  }

  /** No piece of a split contains the separator: split/join replaces every occurrence. */
  lemma {:induction false} SplitPiecesFree(s: string, sep: string)
    requires |sep| > 0
    ensures forall i :: 0 <= i < |Split(s, sep)| ==> !Contains(Split(s, sep)[i], sep)
    decreases |s|
  {
    var parts := Split(s, sep);
    if StartsWith(s, sep) {
      SplitPiecesFree(s[|sep|..], sep);
      assert parts[1..] == Split(s[|sep|..], sep);
      forall i | 0 <= i < |parts| ensures !Contains(parts[i], sep) {
        if i > 0 { assert parts[i] == Split(s[|sep|..], sep)[i - 1]; }
      }
    } else if s != [] {
      var rest := Split(s[1..], sep);
      SplitPiecesFree(s[1..], sep);
      SplitHeadPrefix(s[1..], sep);
      ConsPieceFree(s, rest[0], sep);
      forall i | 0 <= i < |parts| ensures !Contains(parts[i], sep) {
        if i > 0 {
          assert parts[i] == rest[i];
        }
      }
    }
  }

  /**
   * A first character where the separator does not start, followed by a
   * prefix of the rest that is free of the separator, is free of it too.
   */
  lemma ConsPieceFree(s: string, r: string, sep: string)
    requires |sep| > 0 && s != [] && !StartsWith(s, sep)
    requires StartsWith(s[1..], r) && !Contains(r, sep)
    ensures !Contains([s[0]] + r, sep)
  {
    var h := [s[0]] + r;
    forall j | 0 <= j <= |h| - |sep| ensures !OccursAt(h, sep, j) {
      if j == 0 {
        assert h == s[..|h|];
        assert s[..|sep|] == h[..|sep|];
      } else {
        assert h[j..j + |sep|] == r[j - 1..j - 1 + |sep|];
        assert !OccursAt(r, sep, j - 1);
      }
    }
  }
}
