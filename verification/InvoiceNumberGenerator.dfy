/** The invoice number generator: `INV-<yyyy><MM>-<sequence, at least four
    digits>`, one sequence per calendar month, continued from the greatest
    number already issued in the month. */
module InvoiceNumbers {
  import opened Foundation
  import opened Calendar
  import opened Numerals
  import opened DomainShared
  import Check

  /** `string.CompareOrdinal(a, b) <= 0`: `a` is a prefix of `b`, or has the
      smaller character at the first position where they differ. */
  predicate OrdinalLe(a: string, b: string) {
    |a| == 0 || (|b| > 0 && (a[0] < b[0] || (a[0] == b[0] && OrdinalLe(a[1..], b[1..]))))
  }

  lemma {:induction false} OrdinalLeTotal(a: string, b: string)
    ensures OrdinalLe(a, b) || OrdinalLe(b, a)
  {
    if |a| > 0 && |b| > 0 && a[0] == b[0] {
      OrdinalLeTotal(a[1..], b[1..]);
    }
  }

  lemma {:induction false} OrdinalLeTransitive(a: string, b: string, c: string)
    requires OrdinalLe(a, b) && OrdinalLe(b, c)
    ensures OrdinalLe(a, c)
  {
    if |a| > 0 && a[0] == b[0] && b[0] == c[0] {
      OrdinalLeTransitive(a[1..], b[1..], c[1..]);
    }
  }

  lemma {:induction false} OrdinalLeAntisymmetric(a: string, b: string)
    requires OrdinalLe(a, b) && OrdinalLe(b, a)
    ensures a == b
  {
    if |a| > 0 {
      OrdinalLeAntisymmetric(a[1..], b[1..]);
      assert a == [a[0]] + a[1..] && b == [b[0]] + b[1..];
    }
  }

  /** A common prefix does not affect the comparison. */
  lemma {:induction false} OrdinalLeCommonPrefix(p: string, a: string, b: string)
    ensures OrdinalLe(p + a, p + b) <==> OrdinalLe(a, b)
  {
    if |p| == 0 {
      assert p + a == a && p + b == b;
    } else {
      assert (p + a)[1..] == p[1..] + a && (p + b)[1..] == p[1..] + b;
      OrdinalLeCommonPrefix(p[1..], a, b);
    }
  }

  lemma MulMonotone(a: int, b: int, k: nat)
    requires a <= b
    ensures a * k <= b * k
  {
    assert (b - a) * k >= 0;
  }

  /** Below a difference in the leading digit, the rest of the digits cannot
      make up for it. */
  lemma LeadingDigitDecides(ds: int, a: int, dt: int, b: int, p: int)
    requires 0 <= ds < dt && 0 <= a < p && 0 <= b
    ensures ds * p + a < dt * p + b
  {
    MulMonotone(ds + 1, dt, p);
    assert (ds + 1) * p == ds * p + p;
  }

  /** On digit strings of the same length, ordinal order is numeric order. */
  lemma {:induction false} OrdinalLeIsNumeric(s: string, t: string)
    requires |s| == |t| && AllDigits(s) && AllDigits(t)
    ensures OrdinalLe(s, t) <==> Value(s) <= Value(t)
  {
    if |s| > 0 {
      var p := Pow10(|s| - 1);
      var s', t' := s[1..], t[1..];
      assert s == [s[0]] + s' && t == [t[0]] + t';
      ValueCons(s[0], s');
      ValueCons(t[0], t');
      ValueBound(s');
      ValueBound(t');
      var ds, dt := DigitValue(s[0]), DigitValue(t[0]);
      assert Value(s) == ds * p + Value(s');
      assert Value(t) == dt * p + Value(t');
      if s[0] == t[0] {
        OrdinalLeIsNumeric(s', t');
      } else if s[0] < t[0] {
        LeadingDigitDecides(ds, Value(s'), dt, Value(t'), p);
      } else {
        LeadingDigitDecides(dt, Value(t'), ds, Value(s'), p);
      }
    }
  }

  /** The value of a four-digit string, written out. */
  lemma Value4(s: string)
    requires |s| == 4 && AllDigits(s)
    ensures Value(s) == 1000 * DigitValue(s[0]) + 100 * DigitValue(s[1]) + 10 * DigitValue(s[2]) + DigitValue(s[3])
  {
    var a, b, c := s[..3], s[..2], s[..1];
    assert a[..2] == b && b[..1] == c && c[..0] == [];
    assert Value(c) == DigitValue(s[0]);
    assert Value(b) == Value(c) * 10 + DigitValue(s[1]);
    assert Value(a) == Value(b) * 10 + DigitValue(s[2]);
    assert Value(s) == Value(a) * 10 + DigitValue(s[3]);
  }

  predicate StartsWith(s: string, prefix: string) {
    |prefix| <= |s| && s[..|prefix|] == prefix
  }

  /** A string that starts with a prefix is that prefix followed by the rest. */
  lemma PrefixAndRest(s: string, prefix: string)
    requires StartsWith(s, prefix)
    ensures s == prefix + s[|prefix|..]
  {
    assert s == s[..|prefix|] + s[|prefix|..];
  }

  /** `$"INV-{now:yyyyMM}-"` with the Gregorian year and month: the prefix
      every number of the month carries. */
  function MonthPrefix(now: DateTime): string {
    "INV-" + FormatD(now.year, 4) + FormatD(now.month, 2) + "-"
  }

  /** The prefix is eleven characters: "INV-", four year digits, two month
      digits and a dash. */
  lemma MonthPrefixShape(now: DateTime)
    ensures |MonthPrefix(now)| == 11
    ensures MonthPrefix(now)[..4] == "INV-" && MonthPrefix(now)[10] == '-'
    ensures MonthPrefix(now)[4..8] == FormatD(now.year, 4)
    ensures MonthPrefix(now)[8..10] == FormatD(now.month, 2)
  {
    assert Pow10(4) == 10000 && Pow10(2) == 100;
    FormatDWidth(now.year, 4);
    FormatDWidth(now.month, 2);
  }

  /** Two different months never share a prefix. */
  lemma MonthPrefixInjective(a: DateTime, b: DateTime)
    requires MonthPrefix(a) == MonthPrefix(b)
    ensures a.year == b.year && a.month == b.month
  {
    MonthPrefixShape(a);
    MonthPrefixShape(b);
    FormatDRoundTrip(a.year, 4);
    FormatDRoundTrip(b.year, 4);
    FormatDRoundTrip(a.month, 2);
    FormatDRoundTrip(b.month, 2);
  }

  /** `Where(i => i.InvoiceNumber.StartsWith(prefix))`. */
  function WithPrefix(numbers: seq<string>, prefix: string): (r: seq<string>)
    ensures forall x :: x in r <==> x in numbers && StartsWith(x, prefix)
  {
    if |numbers| == 0 then []
    else
      assert numbers == [numbers[0]] + numbers[1..];
      (if StartsWith(numbers[0], prefix) then [numbers[0]] else []) + WithPrefix(numbers[1..], prefix)
  }

  /** If `top` dominates `rest` and dominates `x`, it dominates both. */
  lemma DominatesAll(xs: seq<string>, below: string, top: string)
    requires forall x :: x in xs ==> OrdinalLe(x, below)
    requires OrdinalLe(below, top)
    ensures forall x :: x in xs ==> OrdinalLe(x, top)
  {
    forall x | x in xs ensures OrdinalLe(x, top) {
      OrdinalLeTransitive(x, below, top);
    }
  }

  /** `OrderByDescending(n => n).First()`: the ordinal maximum. */
  function Greatest(xs: seq<string>): (m: string)
    requires |xs| > 0
    ensures m in xs && forall x :: x in xs ==> OrdinalLe(x, m)
  {
    if |xs| == 1 then
      assert forall x :: x in xs ==> x == xs[0];
      OrdinalLeTotal(xs[0], xs[0]);
      xs[0]
    else
      assert xs == [xs[0]] + xs[1..];
      var rest := Greatest(xs[1..]);
      if OrdinalLe(xs[0], rest) then rest
      else
        OrdinalLeTotal(xs[0], rest);
        DominatesAll(xs[1..], rest, xs[0]);
        OrdinalLeTotal(xs[0], xs[0]);
        xs[0]
  }

  /** An element that dominates a list is its `Greatest`. */
  lemma GreatestIsUnique(xs: seq<string>, m: string)
    requires m in xs && forall x :: x in xs ==> OrdinalLe(x, m)
    ensures Greatest(xs) == m
  {
    OrdinalLeAntisymmetric(Greatest(xs), m);
  }

  /** The last number issued in the month: the greatest number carrying the
      month's prefix, if any (`FirstOrDefault` after the descending sort). */
  function LastOfMonth(numbers: seq<string>, prefix: string): (r: Option<string>)
    ensures r.None? <==> forall x :: x in numbers ==> !StartsWith(x, prefix)
    ensures r.Some? ==> r.value in numbers && StartsWith(r.value, prefix)
    ensures r.Some? ==> forall x :: x in numbers && StartsWith(x, prefix) ==> OrdinalLe(x, r.value)
  {
    var month := WithPrefix(numbers, prefix);
    if |month| == 0 then None else Some(Greatest(month))
  }

  /** `nextNumber`: 1 unless the suffix parses, then the parsed value plus
      one in 32-bit arithmetic (so Int32.MaxValue wraps to Int32.MinValue). */
  function NextSequence(suffix: Option<string>): (n: int)
    ensures suffix.None? || TryParseInt32(suffix.value).None? ==> n == 1
    ensures suffix.Some? && TryParseInt32(suffix.value).Some? ==>
      var v := TryParseInt32(suffix.value).value;
      n == (if v == Int32Max then Int32Min else v + 1)
  {
    match suffix
    case None => 1
    case Some(s) =>
      match TryParseInt32(s)
      case None => 1
      case Some(v) => if v == Int32Max then Int32Min else v + 1
  }

  /** `GenerateAsync`, given the invoice numbers already stored and the clock. */
  function Generate(numbers: seq<string>, now: DateTime): (r: string)
    ensures StartsWith(r, MonthPrefix(now))
  {
    var prefix := MonthPrefix(now);
    var last := LastOfMonth(numbers, prefix);
    var suffix := if last.Some? then Some(last.value[|prefix|..]) else None;
    var r := prefix + FormatD(NextSequence(suffix), 4);
    assert r[..|prefix|] == prefix;
    r
  }

  /** Every generated number is 15 to 22 characters long, so it always passes
      the invoice number check of the Invoice constructor. */
  lemma GeneratedNumberFits(numbers: seq<string>, now: DateTime)
    ensures 15 <= |Generate(numbers, now)| <= 22
    ensures Check.NotNullOrWhiteSpace(Some(Generate(numbers, now)), InvoiceNumberField, MaxInvoiceNumberLength).Ok?
  {
    var prefix := MonthPrefix(now);
    MonthPrefixShape(now);
    var last := LastOfMonth(numbers, prefix);
    var suffix := if last.Some? then Some(last.value[|prefix|..]) else None;
    var n := NextSequence(suffix);
    assert Pow10(10) == 10_000_000_000;
    if n < 0 {
      DigitsLength(-n, 10);
    } else {
      DigitsLength(n, 10);
    }
    var r := Generate(numbers, now);
    assert r[0] == 'I' && !Check.IsWhiteSpace(r[0]);
  }

  /** With no number yet this month the sequence starts at 0001. */
  lemma FirstOfMonth(numbers: seq<string>, now: DateTime)
    requires forall x :: x in numbers ==> !StartsWith(x, MonthPrefix(now))
    ensures Generate(numbers, now) == MonthPrefix(now) + "0001"
  {
    assert FormatD(1, 4) == "0001";
  }

  /** Only the numbers of the current month matter: neither other months'
      numbers nor order nor repetition change the result. */
  lemma OnlyTheMonthMatters(xs: seq<string>, ys: seq<string>, now: DateTime)
    requires forall x :: (x in xs && StartsWith(x, MonthPrefix(now))) <==> (x in ys && StartsWith(x, MonthPrefix(now)))
    ensures Generate(xs, now) == Generate(ys, now)
  {
    var prefix := MonthPrefix(now);
    var lx, ly := LastOfMonth(xs, prefix), LastOfMonth(ys, prefix);
    if lx.Some? {
      assert ly.Some?;
      OrdinalLeAntisymmetric(lx.value, ly.value);
    }
  }

  /** The dominating number of the month is the base: if its suffix parses
      as n, the result carries n + 1 zero-padded to four digits. */
  lemma ContinuesFromGreatest(numbers: seq<string>, now: DateTime, base: string, n: int)
    requires base in numbers && StartsWith(base, MonthPrefix(now))
    requires forall x :: x in numbers && StartsWith(x, MonthPrefix(now)) ==> OrdinalLe(x, base)
    requires TryParseInt32(base[|MonthPrefix(now)|..]) == Some(n) && n < Int32Max
    ensures Generate(numbers, now) == MonthPrefix(now) + FormatD(n + 1, 4)
    ensures TryParseInt32(Generate(numbers, now)[|MonthPrefix(now)|..]) == Some(n + 1)
  {
    var prefix := MonthPrefix(now);
    var last := LastOfMonth(numbers, prefix);
    OrdinalLeAntisymmetric(last.value, base);
    FormatDRoundTrip(n + 1, 4);
    assert (prefix + FormatD(n + 1, 4))[|prefix|..] == FormatD(n + 1, 4);
  }

  /** An unparsable suffix on the dominating number silently restarts the
      sequence at 0001. */
  lemma RestartsOnUnparsableSuffix(numbers: seq<string>, now: DateTime, base: string)
    requires base in numbers && StartsWith(base, MonthPrefix(now))
    requires forall x :: x in numbers && StartsWith(x, MonthPrefix(now)) ==> OrdinalLe(x, base)
    requires TryParseInt32(base[|MonthPrefix(now)|..]).None?
    ensures Generate(numbers, now) == MonthPrefix(now) + "0001"
  {
    var last := LastOfMonth(numbers, MonthPrefix(now));
    OrdinalLeAntisymmetric(last.value, base);
    assert FormatD(1, 4) == "0001";
  }

  /** For sequence values 1 to 9999 the number is exactly 15 characters and
      its suffix parses back to the sequence value. */
  lemma SequenceRoundTrip(now: DateTime, k: int)
    requires 1 <= k <= 9999
    ensures |MonthPrefix(now) + FormatD(k, 4)| == 15 <= MaxInvoiceNumberLength
    ensures TryParseInt32((MonthPrefix(now) + FormatD(k, 4))[11..]) == Some(k)
  {
    MonthPrefixShape(now);
    assert Pow10(4) == 10000;
    FormatDWidth(k, 4);
    FormatDRoundTrip(k, 4);
    assert (MonthPrefix(now) + FormatD(k, 4))[11..] == FormatD(k, 4);
  }

  /** Behind a common prefix, a digit suffix of larger value sorts later. */
  lemma LargerSuffixSortsLater(prefix: string, small: string, large: string)
    requires |small| == |large| && AllDigits(small) && AllDigits(large)
    requires Value(small) < Value(large)
    ensures !OrdinalLe(prefix + large, prefix + small)
  {
    OrdinalLeCommonPrefix(prefix, large, small);
    OrdinalLeIsNumeric(large, small);
  }

  /** While every number of the month has a four-digit suffix, the generated
      number is new: its sequence value exceeds every one issued. */
  lemma GenerateIsFresh(numbers: seq<string>, now: DateTime)
    requires forall x :: x in numbers && StartsWith(x, MonthPrefix(now)) ==>
      |x| == |MonthPrefix(now)| + 4 && AllDigits(x[|MonthPrefix(now)|..])
    ensures Generate(numbers, now) !in numbers
  {
    var prefix := MonthPrefix(now);
    var r := Generate(numbers, now);
    var last := LastOfMonth(numbers, prefix);
    if last.Some? && r in numbers {
      var m := last.value;
      var sm := m[|prefix|..];
      ValueBound(sm);
      assert Pow10(4) == 10000;
      var v := Value(sm);
      assert TryParseInt32(sm) == Some(v);
      ContinuesFromGreatest(numbers, now, m, v);
      var sr := r[|prefix|..];
      FormatDRoundTrip(v + 1, 4);
      assert Value(sr) == v + 1;
      PrefixAndRest(m, prefix);
      PrefixAndRest(r, prefix);
      LargerSuffixSortsLater(prefix, sm, sr);
      assert false;
    }
  }

  /** The comparisons the 9999/10000 example rests on. */
  lemma TenThousandFacts()
    ensures OrdinalLe("10000", "9999") && !OrdinalLe("9999", "10000")
    ensures TryParseInt32("9999") == Some(9999) && FormatD(10000, 4) == "10000"
  {
    Value4("9999");
  }

  /** Ordering is by text, not by number: with ...-9999 and ...-10000 both
      issued, the base is ...-9999 and ...-10000 is generated a second time. */
  lemma StringOrderRepeatsAfter9999(now: DateTime)
    ensures var p := MonthPrefix(now);
      Generate([p + "9999", p + "10000"], now) == p + "10000"
  {
    var p := MonthPrefix(now);
    var lo, hi := p + "9999", p + "10000";
    TenThousandFacts();
    OrdinalLeCommonPrefix(p, "10000", "9999");
    OrdinalLeTotal(lo, lo);
    assert lo[..|p|] == p && hi[..|p|] == p && lo[|p|..] == "9999";
    assert forall y :: y in [lo, hi] ==> y == lo || y == hi;
    ContinuesFromGreatest([lo, hi], now, lo, 9999);
  }

  /** Numbers of an earlier month do not carry over: the first number of a
      new month is 0001. */
  lemma NewMonthRestarts(numbers: seq<string>, earlier: DateTime, now: DateTime)
    requires earlier.year != now.year || earlier.month != now.month
    requires forall x :: x in numbers ==> StartsWith(x, MonthPrefix(earlier))
    ensures Generate(numbers, now) == MonthPrefix(now) + "0001"
  {
    MonthPrefixShape(earlier);
    MonthPrefixShape(now);
    forall x | x in numbers ensures !StartsWith(x, MonthPrefix(now)) {
      if StartsWith(x, MonthPrefix(now)) {
        MonthPrefixInjective(earlier, now);
      }
    }
    FirstOfMonth(numbers, now);
  }

  /** The prefix of any instant in January 2026. */
  lemma January2026Prefix(now: DateTime)
    requires now.year == 2026 && now.month == 1
    ensures MonthPrefix(now) == "INV-202601-"
  {
    assert Digits(202) == "202";
    assert FormatD(2026, 4) == "2026";
    assert FormatD(1, 2) == "01";
  }

  /** In any month, ...-0007 as the last number is followed by ...-0008. */
  lemma SevenIsFollowedByEight(now: DateTime)
    ensures Generate([MonthPrefix(now) + "0007"], now) == MonthPrefix(now) + "0008"
  {
    var p := MonthPrefix(now);
    var x := p + "0007";
    assert x[..|p|] == p && x[|p|..] == "0007";
    OrdinalLeTotal(x, x);
    Value4("0007");
    assert TryParseInt32("0007") == Some(7);
    assert forall y :: y in [x] ==> y == x;
    ContinuesFromGreatest([x], now, x, 7);
    assert FormatD(8, 4) == "0008";
  }

  /** The worked examples: January 2026 starts at INV-202601-0001 and
      continues INV-202601-0007 with INV-202601-0008. */
  lemma January2026(now: DateTime)
    requires now.year == 2026 && now.month == 1
    ensures Generate([], now) == "INV-202601-0001"
    ensures Generate(["INV-202601-0007"], now) == "INV-202601-0008"
  {
    January2026Prefix(now);
    FirstOfMonth([], now);
    SevenIsFollowedByEight(now);
  }
}
