/**
 The server's `complete_ledgers` text (app/services/xrpl_service.py:439-471).
*/
module CompleteLedgers {
  import opened Wrappers

  type Range = (int, int)

  // ---------------------------------------------------------------- text

  predicate IsSpace(c: char) { c in {' ', '\t', '\n', '\r'} }
  predicate IsDigit(c: char) { '0' <= c <= '9' }

  function DigitValue(c: char): (d: nat)
    requires IsDigit(c)
    ensures d < 10
  {
    c as int - '0' as int
  }

  /** `text.split(sep)`: always at least one chunk. */
  function Split(text: string, sep: char): (chunks: seq<string>)
    ensures |chunks| > 0
    ensures forall k :: 0 <= k < |chunks| ==> sep !in chunks[k]
  {
    if text == "" then [""]
    else
      var rest := Split(text[1..], sep);
      if text[0] == sep then [""] + rest else [[text[0]] + rest[0]] + rest[1..]
  }

  function Strip(s: string): string {
    if s == "" then s
    else if IsSpace(s[0]) then Strip(s[1..])
    else if IsSpace(s[|s| - 1]) then Strip(s[..|s| - 1])
    else s
  }

  /** Decimal digits with single underscores between them, as Python reads an integer literal. */
  function ParseDigits(s: string): Option<nat> {
    if s == "" || !IsDigit(s[|s| - 1]) then None
    else
      var d := DigitValue(s[|s| - 1]);
      var init := s[..|s| - 1];
      if init == "" then Some(d) else
      match ParseDigits(if init[|init| - 1] == '_' then init[..|init| - 1] else init)
      case None => None
      case Some(n) => Some(10 * n + d)
  }

  /** `int(s)`: surrounding blanks and one sign are allowed; None is ValueError. */
  function ParseInt(s: string): Option<int> {
    var t := Strip(s);
    if t == "" then None
    else
      var n := ParseDigits(if t[0] in {'-', '+'} then t[1..] else t);
      if n.None? then None
      else
        var magnitude: int := n.value;
        Some(if t[0] == '-' then -magnitude else magnitude)
  }

  /** The text before and after the first occurrence of `sep`. */
  function SplitOnce(s: string, sep: char): (p: (string, string))
    requires sep in s
    ensures s == p.0 + [sep] + p.1 && sep !in p.0
  {
    if s[0] == sep then ("", s[1..]) else var p := SplitOnce(s[1..], sep); ([s[0]] + p.0, p.1)
  }

  /** The range one chunk contributes, or none when it is blank, "empty" or unreadable. */
  function ChunkRange(raw: string): Option<Range> {
    var chunk := Strip(raw);
    if chunk == "" || chunk == "empty" then None
    else if '-' in chunk then
      var (low, high) := SplitOnce(chunk, '-');
      match (ParseInt(low), ParseInt(high))
      case (Some(a), Some(b)) => Some((a, b))
      case _ => None
    else
      match ParseInt(chunk) case Some(n) => Some((n, n)) case None => None
  }

  function ChunkRanges(chunks: seq<string>): seq<Range> {
    if chunks == [] then []
    else
      var last := ChunkRange(chunks[|chunks| - 1]);
      ChunkRanges(chunks[..|chunks| - 1]) + if last.Some? then [last.value] else []
  }

  function Ranges(text: string): seq<Range> { ChunkRanges(Split(text, ',')) }

  method ParseCompleteLedgers(text: string) returns (ranges: seq<Range>)
    ensures ranges == Ranges(text)
  {
    ranges := [];
    var chunks := Split(text, ',');
    var k := 0;
    while k < |chunks|
      invariant 0 <= k <= |chunks|
      invariant ranges == ChunkRanges(chunks[..k])
    {
      var chunk := Strip(chunks[k]);
      ghost var before := ranges;
      if chunk != "" && chunk != "empty" {
        if '-' in chunk {
          var (low, high) := SplitOnce(chunk, '-');
          var a, b := ParseInt(low), ParseInt(high);
          if a.Some? && b.Some? { ranges := ranges + [(a.value, b.value)]; }
        } else {
          var n := ParseInt(chunk);
          if n.Some? { ranges := ranges + [(n.value, n.value)]; }
        }
      }
      assert chunks[..k + 1][..k] == chunks[..k] && chunks[..k + 1][k] == chunks[k];
      k := k + 1;
    }
    assert chunks[..k] == chunks;
  }

  // ---------------------------------------------------------------- coverage

  predicate Covers(r: Range, start: int, end: int) { r.0 <= start && end <= r.1 }

  /** The server says it holds every ledger of [start, end] in one unbroken range. */
  predicate HasCompleteRange(text: string, start: int, end: int) {
    exists k :: 0 <= k < |Ranges(text)| && Covers(Ranges(text)[k], start, end)
  }

  /** The server's own text lists ledger `i`. */
  predicate Reports(text: string, i: int) { HasCompleteRange(text, i, i) }

  /** Coverage of a window reports every ledger in it. */
  lemma CoverageReportsEveryLedger(text: string, start: int, end: int, i: int)
    requires HasCompleteRange(text, start, end) && start <= i <= end
    ensures Reports(text, i)
  {
    var k :| 0 <= k < |Ranges(text)| && Covers(Ranges(text)[k], start, end);
    assert Covers(Ranges(text)[k], i, i);
  }

  lemma {:induction false} ChunkRangesConcat(a: seq<string>, b: seq<string>)
    ensures ChunkRanges(a + b) == ChunkRanges(a) + ChunkRanges(b)
  {
    if b == [] {
      assert a + b == a;
    } else {
      assert (a + b)[..|a + b| - 1] == a + b[..|b| - 1];
      ChunkRangesConcat(a, b[..|b| - 1]);
    }
  }

  /** A chunk that cannot be read contributes nothing, wherever it stands. */
  lemma UnreadableChunkIsIgnored(before: seq<string>, chunk: string, after: seq<string>)
    requires ChunkRange(chunk).None?
    ensures ChunkRanges(before + [chunk] + after) == ChunkRanges(before + after)
  {
    ChunkRangesConcat(before + [chunk], after);
    ChunkRangesConcat(before, [chunk]);
    ChunkRangesConcat(before, after);
  }

  /** Some chunk alone reads as a range that covers [start, end]. */
  predicate ChunkCovers(chunk: string, start: int, end: int) {
    ChunkRange(chunk).Some? && Covers(ChunkRange(chunk).value, start, end)
  }

  lemma {:induction false} RangeComesFromAChunk(chunks: seq<string>, k: nat) returns (c: nat)
    requires k < |ChunkRanges(chunks)|
    ensures c < |chunks| && ChunkRange(chunks[c]) == Some(ChunkRanges(chunks)[k])
  {
    var n := |chunks| - 1;
    if k < |ChunkRanges(chunks[..n])| { c := RangeComesFromAChunk(chunks[..n], k); } else { c := n; }
  }

  lemma {:induction false} ChunkGivesARange(chunks: seq<string>, c: nat) returns (k: nat)
    requires c < |chunks| && ChunkRange(chunks[c]).Some?
    ensures k < |ChunkRanges(chunks)| && ChunkRanges(chunks)[k] == ChunkRange(chunks[c]).value
  {
    var n := |chunks| - 1;
    if c < n { k := ChunkGivesARange(chunks[..n], c); } else { k := |ChunkRanges(chunks[..n])|; }
  }

  /** Coverage always rests on one single chunk that reads as a covering range. */
  lemma CoverageHasAWitness(text: string, start: int, end: int)
    ensures HasCompleteRange(text, start, end)
       <==> exists chunk :: chunk in Split(text, ',') && ChunkCovers(chunk, start, end)
  {
    var chunks := Split(text, ',');
    if k: nat :| k < |Ranges(text)| && Covers(Ranges(text)[k], start, end) {
      var c := RangeComesFromAChunk(chunks, k);
      assert ChunkCovers(chunks[c], start, end);
    }
    if chunk :| chunk in chunks && ChunkCovers(chunk, start, end) {
      var c: nat :| c < |chunks| && chunks[c] == chunk;
      var k := ChunkGivesARange(chunks, c);
      assert Covers(Ranges(text)[k], start, end);
    }
  }

  // ---------------------------------------------------------------- exactly what can be read

  function Join(chunks: seq<string>, sep: char): string
    requires |chunks| > 0
  {
    if |chunks| == 1 then chunks[0] else chunks[0] + [sep] + Join(chunks[1..], sep)
  }

  /** Splitting loses and adds nothing: joined again, the chunks, none of which holds a separator, are the text. */
  lemma {:induction false} SplitExactly(text: string, sep: char)
    ensures Join(Split(text, sep), sep) == text
  {
    if text != "" {
      var rest := Split(text[1..], sep);
      SplitExactly(text[1..], sep);
      if text[0] == sep {
        assert ([""] + rest)[1..] == rest;
        assert text == [sep] + text[1..];
      } else {
        var first := [text[0]] + rest[0];
        assert ([first] + rest[1..])[1..] == rest[1..];
        assert text == [text[0]] + text[1..];
      }
    }
  }

  predicate AllSpace(s: string) { forall k :: 0 <= k < |s| ==> IsSpace(s[k]) }

  predicate Bare(s: string) { s == "" || (!IsSpace(s[0]) && !IsSpace(s[|s| - 1])) }

  lemma StripsAll(s: string)
    requires AllSpace(s)
    ensures Strip(s) == ""
  {
    if s != "" { StripsAll(s[1..]); }
  }

  /** Stripping takes away exactly the blanks around a text. */
  lemma {:induction false} StripExactly(left: string, text: string, right: string)
    requires AllSpace(left) && Bare(text) && AllSpace(right)
    ensures Strip(left + text + right) == text
  {
    var s := left + text + right;
    if text == "" {
      StripsAll(s);
    } else if left != "" {
      assert s[0] == left[0] && s[1..] == left[1..] + text + right;
      StripExactly(left[1..], text, right);
    } else if right != "" {
      var n := |right| - 1;
      assert s[0] == text[0] && s[|s| - 1] == right[n] && s[..|s| - 1] == left + text + right[..n];
      StripExactly(left, text, right[..n]);
    } else {
      assert s == text;
    }
  }

  /** Digits, with single underscores only between two of them. */
  predicate IsNumeral(s: string) {
    && s != "" && IsDigit(s[0]) && IsDigit(s[|s| - 1])
    && forall k :: 0 <= k < |s| ==> FitsNumeral(s, k)
  }

  predicate FitsNumeral(s: string, k: nat)
    requires k < |s|
  {
    IsDigit(s[k]) || (s[k] == '_' && 0 < k && IsDigit(s[k - 1]))
  }

  /** The digits of a text, in order. */
  function Digits(s: string): seq<nat> {
    if s == "" then [] else (if IsDigit(s[0]) then [DigitValue(s[0])] else []) + Digits(s[1..])
  }

  function Pow10(n: nat): nat { if n == 0 then 1 else 10 * Pow10(n - 1) }

  /** The number that digits stand for: each counts for a power of ten by its place. */
  function Decimal(ds: seq<nat>): nat { if ds == [] then 0 else ds[0] * Pow10(|ds| - 1) + Decimal(ds[1..]) }

  lemma {:induction false} DigitsAppend(s: string, c: char)
    ensures Digits(s + [c]) == Digits(s) + if IsDigit(c) then [DigitValue(c)] else []
  {
    var t := s + [c];
    if s == "" {
      assert t == [c] && t[1..] == "" && Digits("") == [];
    } else {
      assert t[0] == s[0] && t[1..] == s[1..] + [c];
      DigitsAppend(s[1..], c);
      assert Digits(t) == (if IsDigit(s[0]) then [DigitValue(s[0])] else []) + Digits(t[1..]);
    }
  }

  lemma {:induction false} DecimalAppend(ds: seq<nat>, d: nat)
    ensures Decimal(ds + [d]) == 10 * Decimal(ds) + d
  {
    if ds == [] {
      assert [d][1..] == [] && Decimal([d]) == d * Pow10(0) + Decimal([]);
    } else {
      assert (ds + [d])[0] == ds[0] && (ds + [d])[1..] == ds[1..] + [d];
      DecimalAppend(ds[1..], d);
      assert ds[0] * Pow10(|ds|) == 10 * (ds[0] * Pow10(|ds| - 1));
    }
  }

  /** An underscore counts for nothing. */
  lemma SkipUnderscore(init: string, front: string)
    requires front == init || init == front + ['_']
    ensures Digits(front) == Digits(init)
  {
    if front != init { DigitsAppend(front, '_'); }
  }

  /** Exactly the numerals are read, each as the number it stands for. */
  lemma {:induction false} ParseDigitsExactly(s: string)
    ensures ParseDigits(s).Some? <==> IsNumeral(s)
    ensures ParseDigits(s).Some? ==> ParseDigits(s).value == Decimal(Digits(s))
    decreases |s|
  {
    if s != "" && IsDigit(s[|s| - 1]) {
      var init, c := s[..|s| - 1], s[|s| - 1];
      assert s == init + [c];
      DigitsAppend(init, c);
      DecimalAppend(Digits(init), DigitValue(c));
      if init == "" {
        assert Digits("") == [];
      } else {
        var front := if init[|init| - 1] == '_' then init[..|init| - 1] else init;
        ParseDigitsExactly(front);
        FrontIsNumeral(s, init, front);
        assert front == init || init == front + ['_'];
        SkipUnderscore(init, front);
      }
    }
  }

  lemma FrontIsNumeral(s: string, init: string, front: string)
    requires |s| == |init| + 1 && s[..|init|] == init && init != "" && IsDigit(s[|s| - 1])
    requires front == if init[|init| - 1] == '_' then init[..|init| - 1] else init
    ensures IsNumeral(s) <==> IsNumeral(front)
  {
    forall k | 0 <= k < |init| ensures s[k] == init[k] && (k < |front| ==> s[k] == front[k]) {
      assert s[k] == s[..|init|][k];
    }
    if IsNumeral(front) { NumeralGrows(s, front); }
    if IsNumeral(s) { NumeralShrinks(s, front); }
  }

  lemma NumeralShrinks(s: string, front: string)
    requires IsNumeral(s) && |front| < |s| <= |front| + 2
    requires forall k :: 0 <= k < |front| ==> s[k] == front[k]
    requires if |s| == |front| + 2 then s[|front|] == '_' else front != "" && front[|front| - 1] != '_'
    ensures IsNumeral(front)
  {
    var n := |front|;
    if |s| == n + 2 {
      assert FitsNumeral(s, n);
    } else {
      assert s[n - 1] == front[n - 1];
      assert FitsNumeral(s, n - 1);
    }
    forall k | 0 <= k < n ensures FitsNumeral(front, k) {
      assert FitsNumeral(s, k) && s[k] == front[k];
      if 0 < k { assert s[k - 1] == front[k - 1]; }
    }
    assert s[0] == front[0];
  }

  lemma NumeralGrows(s: string, front: string)
    requires IsNumeral(front) && |front| < |s| <= |front| + 2 && IsDigit(s[|s| - 1])
    requires forall k :: 0 <= k < |front| ==> s[k] == front[k]
    requires |s| == |front| + 2 ==> s[|front|] == '_'
    ensures IsNumeral(s)
  {
    forall k | 0 <= k < |s| ensures FitsNumeral(s, k) {
      if k < |front| {
        assert FitsNumeral(front, k) && s[k] == front[k];
        if 0 < k { assert s[k - 1] == front[k - 1]; }
      } else if k == |front| {
        assert s[k - 1] == front[k - 1];
      }
    }
    assert s[0] == front[0];
  }

  /** An optional sign and a numeral. */
  predicate Denotes(s: string, n: int) {
    if s != "" && s[0] == '-' then IsNumeral(s[1..]) && n == -(Decimal(Digits(s[1..])) as int)
    else if s != "" && s[0] == '+' then IsNumeral(s[1..]) && n == Decimal(Digits(s[1..]))
    else IsNumeral(s) && n == Decimal(Digits(s))
  }

  lemma ParseIntExactly(s: string, n: int)
    ensures ParseInt(s) == Some(n) <==> Denotes(Strip(s), n)
  {
    var t := Strip(s);
    if t != "" { ParseDigitsExactly(if t[0] in {'-', '+'} then t[1..] else t); }
  }

  /** A lone number, or two numbers joined by the first dash. */
  ghost predicate DenotesRange(t: string, a: int, b: int) {
    if '-' !in t then Denotes(t, a) && a == b
    else exists low, high :: Joins(t, low, high) && Denotes(Strip(low), a) && Denotes(Strip(high), b)
  }

  predicate Joins(t: string, low: string, high: string) { '-' !in low && t == low + "-" + high }

  lemma StripTwice(s: string)
    ensures Strip(Strip(s)) == Strip(s) && Bare(Strip(s))
  {
  }

  /** A chunk contributes a range exactly if, stripped, it denotes one; so nothing else ever counts as coverage. */
  lemma ChunkRangeExactly(chunk: string, a: int, b: int)
    ensures ChunkRange(chunk) == Some((a, b)) <==> DenotesRange(Strip(chunk), a, b)
  {
    var t := Strip(chunk);
    StripTwice(chunk);
    if '-' in t {
      var p := SplitOnce(t, '-');
      ParseIntExactly(p.0, a);
      ParseIntExactly(p.1, b);
      assert Joins(t, p.0, p.1);
      forall low, high | Joins(t, low, high) ensures (low, high) == p { SplitOnceAt(low, '-', high); }
    } else {
      ParseIntExactly(t, a);
      ParseIntExactly(t, b);
    }
  }

  // ---------------------------------------------------------------- round trip

  function Digit(d: nat): (c: char)
    requires d < 10
    ensures IsDigit(c) && DigitValue(c) == d
  {
    ('0' as int + d) as char
  }

  function PrintNat(n: nat): (s: string)
    ensures s != "" && forall k :: 0 <= k < |s| ==> IsDigit(s[k])
  {
    (if n < 10 then "" else PrintNat(n / 10)) + [Digit(n % 10)]
  }

  /** The form a server reports: "low-high", or the bare index of a lone ledger. */
  function PrintRange(r: (nat, nat)): string {
    if r.0 == r.1 then PrintNat(r.0) else PrintNat(r.0) + "-" + PrintNat(r.1)
  }

  function PrintRanges(rs: seq<(nat, nat)>): string {
    if rs == [] then "empty"
    else if |rs| == 1 then PrintRange(rs[0])
    else PrintRange(rs[0]) + "," + PrintRanges(rs[1..])
  }

  lemma AppendDigit(s: string, c: char)
    requires s != "" && IsDigit(s[|s| - 1]) && IsDigit(c) && ParseDigits(s).Some?
    ensures ParseDigits(s + [c]) == Some(10 * ParseDigits(s).value + DigitValue(c))
  {
    var t := s + [c];
    assert t[|t| - 1] == c && t[..|t| - 1] == s;
    assert s[|s| - 1] != '_';
  }

  lemma {:induction false} ParsePrintNat(n: nat)
    ensures ParseDigits(PrintNat(n)) == Some(n)
  {
    if n < 10 {
      assert PrintNat(n) == [Digit(n)];
    } else {
      ParsePrintNat(n / 10);
      AppendDigit(PrintNat(n / 10), Digit(n % 10));
    }
  }

  lemma StripIsNoOp(s: string)
    requires forall k :: 0 <= k < |s| ==> !IsSpace(s[k])
    ensures Strip(s) == s
  {
  }

  lemma ParseIntPrintNat(n: nat)
    ensures ParseInt(PrintNat(n)) == Some(n)
  {
    StripIsNoOp(PrintNat(n));
    ParsePrintNat(n);
  }

  lemma {:induction false} SplitOnceAt(a: string, sep: char, b: string)
    requires sep !in a
    ensures SplitOnce(a + [sep] + b, sep) == (a, b)
  {
    var s := a + [sep] + b;
    if a == "" {
      assert s[1..] == b;
    } else {
      assert s[0] == a[0];
      assert s[1..] == a[1..] + [sep] + b;
      SplitOnceAt(a[1..], sep, b);
      assert [a[0]] + a[1..] == a;
    }
  }

  lemma ChunkRangeLone(n: nat)
    ensures ChunkRange(PrintNat(n)) == Some((n, n))
  {
    var s := PrintNat(n);
    StripIsNoOp(s);
    ParseIntPrintNat(n);
    assert IsDigit(s[0]) && s != "empty";
    assert '-' !in s;
  }

  lemma ChunkRangeDashed(low: nat, high: nat)
    ensures ChunkRange(PrintNat(low) + "-" + PrintNat(high)) == Some((low, high))
  {
    var a, b := PrintNat(low), PrintNat(high);
    var s := a + "-" + b;
    StripIsNoOp(s);
    assert s[|a|] == '-';
    assert IsDigit(s[0]) && s != "empty";
    SplitOnceAt(a, '-', b);
    ParseIntPrintNat(low);
    ParseIntPrintNat(high);
  }

  lemma ChunkRangePrinted(r: (nat, nat))
    ensures ChunkRange(PrintRange(r)) == Some(r)
  {
    ChunkRangeLone(r.0);
    ChunkRangeDashed(r.0, r.1);
  }

  lemma {:induction false} SplitNoSep(a: string, sep: char)
    requires sep !in a
    ensures Split(a, sep) == [a]
  {
    if a != "" { SplitNoSep(a[1..], sep); assert [a[0]] + a[1..] == a; }
  }

  lemma {:induction false} SplitJoin(a: string, sep: char, b: string)
    requires sep !in a
    ensures Split(a + [sep] + b, sep) == [a] + Split(b, sep)
  {
    var s := a + [sep] + b;
    if a == "" {
      assert s[1..] == b;
    } else {
      assert s[0] == a[0] && s[1..] == a[1..] + [sep] + b;
      SplitJoin(a[1..], sep, b);
      assert [a[0]] + a[1..] == a;
    }
  }

  /** Parsing undoes printing, for interval lists of any length. */
  lemma {:induction false} ParseUndoesPrint(rs: seq<(nat, nat)>)
    ensures Ranges(PrintRanges(rs)) == rs
  {
    if rs == [] {
      SplitNoSep("empty", ',');
      StripIsNoOp("empty");
      assert ChunkRange("empty").None?;
      assert ChunkRanges(["empty"]) == ChunkRanges([]);
    } else {
      var head := PrintRange(rs[0]);
      ChunkRangePrinted(rs[0]);
      SingleChunk(head, rs[0]);
      if |rs| == 1 {
        SplitNoSep(head, ',');
      } else {
        SplitJoin(head, ',', PrintRanges(rs[1..]));
        ChunkRangesConcat([head], Split(PrintRanges(rs[1..]), ','));
        ParseUndoesPrint(rs[1..]);
      }
    }
  }

  lemma SingleChunk(chunk: string, r: Range)
    requires ChunkRange(chunk) == Some(r)
    ensures ChunkRanges([chunk]) == [r]
  {
    assert [chunk][..0] == [];
    assert ChunkRanges([]) == [];
  }
}
