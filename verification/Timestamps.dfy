/**
 * core/time.go:5-8 and the TEXT comparisons of plugins/peer/store.go:87-92 and
 * plugins/github/store.go:264-271: RFC3339Nano text of UTC times (section 5.6 of RFC 3339, trailing
 * zeros of the fraction trimmed), compared byte by byte.
 */
module Timestamps {
  import opened Text

  /** A UTC time with a four-digit year. */
  datatype Civil = Civil(year: nat, month: nat, day: nat, hour: nat, minute: nat, second: nat, nano: nat)

  predicate Leap(y: nat) { y % 4 == 0 && (y % 100 != 0 || y % 400 == 0) }

  function MonthLength(y: nat, m: nat): (d: nat)
    ensures 28 <= d <= 31
  {
    if m == 2 then (if Leap(y) then 29 else 28)
    else if m == 4 || m == 6 || m == 9 || m == 11 then 30
    else 31
  }

  predicate Valid(t: Civil) {
    && t.year <= 9999
    && 1 <= t.month <= 12
    && 1 <= t.day <= MonthLength(t.year, t.month)
    && t.hour < 24 && t.minute < 60 && t.second < 60
    && t.nano < 1_000_000_000
  }

  // ---------------------------------------------------------------- instants

  /** Days in the first `m` months of a year. */
  function DaysInMonths(y: nat, m: nat): nat { if m == 0 then 0 else DaysInMonths(y, m - 1) + MonthLength(y, m) }

  /** Days before the first of January of year `y`, counted from year 0. */
  function DaysBeforeYear(y: nat): nat { if y == 0 then 0 else DaysBeforeYear(y - 1) + DaysInMonths(y - 1, 12) }

  function DayNumber(y: nat, m: nat, d: nat): int
    requires m >= 1
  {
    DaysBeforeYear(y) + DaysInMonths(y, m - 1) + d - 1
  }

  /** Whole seconds since the start of year 0. */
  function Seconds(t: Civil): int
    requires Valid(t)
  {
    ((DayNumber(t.year, t.month, t.day) * 24 + t.hour) * 60 + t.minute) * 60 + t.second
  }

  const SECOND: int := 1_000_000_000

  /** Nanoseconds since the start of year 0. */
  function Instant(t: Civil): int
    requires Valid(t)
  {
    Seconds(t) * SECOND + t.nano
  }

  lemma {:induction false} MonthsGrow(y: nat, m: nat, n: nat)
    requires m < n
    ensures DaysInMonths(y, m) + MonthLength(y, m + 1) <= DaysInMonths(y, n)
  {
    if m + 1 < n {
      MonthsGrow(y, m, n - 1);
    }
  }

  lemma {:induction false} YearsGrow(y: nat, z: nat)
    requires y < z
    ensures DaysBeforeYear(y) + DaysInMonths(y, 12) <= DaysBeforeYear(z)
  {
    if y + 1 < z {
      YearsGrow(y, z - 1);
    }
  }

  lemma WithinYear(y: nat, m: nat, d: nat)
    requires 1 <= m <= 12 && 1 <= d <= MonthLength(y, m)
    ensures DaysInMonths(y, m - 1) + d <= DaysInMonths(y, 12)
  {
    MonthsGrow(y, m - 1, 12);
  }

  /** A later date has a greater day number. */
  lemma LaterDate(a: Civil, b: Civil)
    requires Valid(a) && Valid(b)
    requires a.year < b.year || (a.year == b.year && (a.month < b.month || (a.month == b.month && a.day < b.day)))
    ensures DayNumber(a.year, a.month, a.day) < DayNumber(b.year, b.month, b.day)
  {
    if a.year < b.year {
      WithinYear(a.year, a.month, a.day);
      YearsGrow(a.year, b.year);
    } else if a.month < b.month {
      MonthsGrow(a.year, a.month - 1, b.month - 1);
    }
  }

  // ---------------------------------------------------------------- lists of fields

  /** The six fields above the fraction, most significant first. */
  function Fields(t: Civil): seq<nat> { [t.year, t.month, t.day, t.hour, t.minute, t.second] }

  /** The first field that differs decides. */
  predicate Earlier(a: seq<nat>, b: seq<nat>)
    requires |a| == |b|
  {
    a != [] && (a[0] < b[0] || (a[0] == b[0] && Earlier(a[1..], b[1..])))
  }

  lemma EarlierFields(a: Civil, b: Civil)
    ensures Earlier(Fields(a), Fields(b)) <==>
            || a.year < b.year
            || (a.year == b.year &&
                (|| a.month < b.month
                 || (a.month == b.month &&
                     (|| a.day < b.day
                      || (a.day == b.day &&
                          (|| a.hour < b.hour
                           || (a.hour == b.hour && (a.minute < b.minute || (a.minute == b.minute && a.second < b.second)))))))))
  {
    EarlierStep(a.minute, [a.second], b.minute, [b.second]);
    EarlierStep(a.hour, [a.minute, a.second], b.hour, [b.minute, b.second]);
    EarlierStep(a.day, [a.hour, a.minute, a.second], b.day, [b.hour, b.minute, b.second]);
    EarlierStep(a.month, [a.day, a.hour, a.minute, a.second], b.month, [b.day, b.hour, b.minute, b.second]);
    EarlierStep(a.year, [a.month, a.day, a.hour, a.minute, a.second], b.year, [b.month, b.day, b.hour, b.minute, b.second]);
  }

  lemma EarlierStep(x: nat, xs: seq<nat>, y: nat, ys: seq<nat>)
    requires |xs| == |ys|
    ensures Earlier([x] + xs, [y] + ys) <==> x < y || (x == y && Earlier(xs, ys))
  {
    assert ([x] + xs)[1..] == xs && ([y] + ys)[1..] == ys;
  }

  /** The order of the fields is the order of the instants. */
  lemma EarlierIsBefore(a: Civil, b: Civil)
    requires Valid(a) && Valid(b)
    ensures Earlier(Fields(a), Fields(b)) ==> Seconds(a) < Seconds(b)
  {
    EarlierFields(a, b);
    if Earlier(Fields(a), Fields(b)) && (a.year != b.year || a.month != b.month || a.day != b.day) {
      LaterDate(a, b);
    }
  }

  lemma {:induction false} EarlierTotal(a: seq<nat>, b: seq<nat>)
    requires |a| == |b|
    ensures a == b || Earlier(a, b) || Earlier(b, a)
  {
    if a != [] {
      EarlierTotal(a[1..], b[1..]);
      assert a == [a[0]] + a[1..] && b == [b[0]] + b[1..];
    }
  }

  lemma SecondsOrder(a: Civil, b: Civil)
    requires Valid(a) && Valid(b)
    ensures Earlier(Fields(a), Fields(b)) <==> Seconds(a) < Seconds(b)
    ensures Fields(a) == Fields(b) <==> Seconds(a) == Seconds(b)
  {
    EarlierIsBefore(a, b);
    EarlierIsBefore(b, a);
    EarlierTotal(Fields(a), Fields(b));
    if Fields(a) == Fields(b) {
      SameFields(a, b);
    }
  }

  lemma SameFields(a: Civil, b: Civil)
    requires Fields(a) == Fields(b)
    ensures a.(nano := 0) == b.(nano := 0)
  {
    assert forall i :: 0 <= i < 6 ==> Fields(a)[i] == Fields(b)[i];
    assert a.year == Fields(a)[0] && b.year == Fields(b)[0];
    assert a.month == Fields(a)[1] && b.month == Fields(b)[1];
    assert a.day == Fields(a)[2] && b.day == Fields(b)[2];
    assert a.hour == Fields(a)[3] && b.hour == Fields(b)[3];
    assert a.minute == Fields(a)[4] && b.minute == Fields(b)[4];
    assert a.second == Fields(a)[5] && b.second == Fields(b)[5];
  }

  // ---------------------------------------------------------------- text order

  /** SQLite's comparison of two TEXT values: byte by byte, a proper prefix first. */
  predicate LexLess(a: string, b: string) {
    b != "" && (a == "" || a[0] < b[0] || (a[0] == b[0] && LexLess(a[1..], b[1..])))
  }

  lemma {:induction false} LexIrreflexive(a: string)
    ensures !LexLess(a, a)
  {
    if a != "" {
      LexIrreflexive(a[1..]);
    }
  }

  lemma {:induction false} LexAsymmetric(a: string, b: string)
    requires LexLess(a, b)
    ensures !LexLess(b, a)
  {
    if a != "" && a[0] == b[0] {
      LexAsymmetric(a[1..], b[1..]);
    }
  }

  lemma LexCons(c: char, s: string, d: char, t: string)
    ensures LexLess([c] + s, [d] + t) <==> c < d || (c == d && LexLess(s, t))
  {
    assert ([c] + s)[1..] == s && ([d] + t)[1..] == t;
  }

  /** Equal-length heads decide unless they are equal. */
  lemma {:induction false} LexConcat(a: string, s: string, b: string, t: string)
    requires |a| == |b|
    ensures LexLess(a + s, b + t) <==> LexLess(a, b) || (a == b && LexLess(s, t))
    decreases a
  {
    if a == "" {
      assert a + s == s && b + t == t;
    } else {
      assert a + s == [a[0]] + (a[1..] + s) && b + t == [b[0]] + (b[1..] + t);
      LexCons(a[0], a[1..] + s, b[0], b[1..] + t);
      LexConcat(a[1..], s, b[1..], t);
      assert a == [a[0]] + a[1..] && b == [b[0]] + b[1..];
    }
  }

  lemma LexSameHead(h: string, s: string, t: string)
    ensures LexLess(h + s, h + t) <==> LexLess(s, t)
  {
    LexIrreflexive(h);
    LexConcat(h, s, h, t);
  }

  // ---------------------------------------------------------------- padded numbers

  function Pow10(w: nat): nat { if w == 0 then 1 else 10 * Pow10(w - 1) }

  /** Exactly `w` digits. */
  function Pad(n: nat, w: nat): (s: string)
    ensures |s| == w && AllDigits(s)
  {
    if w == 0 then "" else Pad(n / 10, w - 1) + [Digit(n % 10)]
  }

  lemma {:induction false} PadOrder(m: nat, n: nat, w: nat)
    requires m < Pow10(w) && n < Pow10(w)
    ensures LexLess(Pad(m, w), Pad(n, w)) <==> m < n
    ensures Pad(m, w) == Pad(n, w) <==> m == n
  {
    if w > 0 {
      PadOrder(m / 10, n / 10, w - 1);
      var a, c, b, d := Pad(m / 10, w - 1), Digit(m % 10), Pad(n / 10, w - 1), Digit(n % 10);
      LexConcat(a, [c], b, [d]);
      OneChar(c, d);
      assert c < d <==> m % 10 < n % 10;
      assert Pad(m, w)[..w - 1] == a && Pad(n, w)[..w - 1] == b;
      assert Pad(m, w)[w - 1] == c && Pad(n, w)[w - 1] == d;
    }
  }

  lemma OneChar(c: char, d: char)
    ensures LexLess([c], [d]) <==> c < d
  {
    LexCons(c, "", d, "");
    assert [c] + "" == [c] && [d] + "" == [d];
  }

  // ---------------------------------------------------------------- the text of a time

  function Widths(): seq<nat> { [4, 2, 2, 2, 2, 2] }

  function Separators(): seq<string> { ["-", "-", "T", ":", ":", ""] }

  function HeadText(fields: seq<nat>, widths: seq<nat>, seps: seq<string>): string
    requires |fields| == |widths| == |seps|
  {
    if fields == [] then "" else Pad(fields[0], widths[0]) + (seps[0] + HeadText(fields[1..], widths[1..], seps[1..]))
  }

  /** The fraction, nine digits with trailing zeros trimmed; empty for a whole second. */
  function Fraction(t: Civil): string { TrimRight(Pad(t.nano, 9), '0') }

  function Tail(fraction: string): string { if fraction == "" then "Z" else "." + fraction + "Z" }

  /** Format(time.RFC3339Nano) of a UTC time. */
  function Stamp(t: Civil): string { HeadText(Fields(t), Widths(), Separators()) + Tail(Fraction(t)) }

  predicate Fit(fields: seq<nat>, widths: seq<nat>)
    requires |fields| == |widths|
  {
    forall i :: 0 <= i < |fields| ==> fields[i] < Pow10(widths[i])
  }

  lemma {:induction false} HeadOrder(a: seq<nat>, b: seq<nat>, widths: seq<nat>, seps: seq<string>)
    requires |a| == |b| == |widths| == |seps| && Fit(a, widths) && Fit(b, widths)
    ensures |HeadText(a, widths, seps)| == |HeadText(b, widths, seps)|
    ensures LexLess(HeadText(a, widths, seps), HeadText(b, widths, seps)) <==> Earlier(a, b)
    ensures HeadText(a, widths, seps) == HeadText(b, widths, seps) <==> a == b
    decreases a
  {
    if a != [] {
      var ra, rb := HeadText(a[1..], widths[1..], seps[1..]), HeadText(b[1..], widths[1..], seps[1..]);
      HeadOrder(a[1..], b[1..], widths[1..], seps[1..]);
      PadOrder(a[0], b[0], widths[0]);
      LexConcat(Pad(a[0], widths[0]), seps[0] + ra, Pad(b[0], widths[0]), seps[0] + rb);
      LexSameHead(seps[0], ra, rb);
      ConcatEqual(Pad(a[0], widths[0]), seps[0] + ra, Pad(b[0], widths[0]), seps[0] + rb);
      ConcatEqual(seps[0], ra, seps[0], rb);
      assert a == [a[0]] + a[1..] && b == [b[0]] + b[1..];
    }
  }

  lemma ConcatEqual(a: string, s: string, b: string, t: string)
    requires |a| == |b|
    ensures a + s == b + t <==> a == b && s == t
  {
    if a + s == b + t {
      assert (a + s)[..|a|] == a && (b + t)[..|b|] == b;
      assert (a + s)[|a|..] == s && (b + t)[|b|..] == t;
    }
  }

  lemma FieldsFit(t: Civil)
    requires Valid(t)
    ensures Fit(Fields(t), Widths())
  {
    assert Pow10(0) == 1 && Pow10(1) == 10 && Pow10(2) == 100;
    assert Pow10(3) == 1000 && Pow10(4) == 10000;
  }

  lemma NanoFits(n: nat)
    requires n < 1_000_000_000
    ensures n < Pow10(9)
  {
    assert Pow10(2) == 100 && Pow10(4) == 10_000 && Pow10(6) == 1_000_000 && Pow10(8) == 100_000_000;
  }

  // ---------------------------------------------------------------- fractions

  predicate ProperPrefix(a: string, b: string) { |a| < |b| && b[..|a|] == a }

  /** Trimming removes zeros and nothing else. */
  lemma {:induction false} TrimmedZeros(s: string)
    ensures var r := TrimRight(s, '0'); forall i :: |r| <= i < |s| ==> s[i] == '0'
  {
    if s != "" && s[|s| - 1] == '0' {
      TrimmedZeros(s[..|s| - 1]);
    }
  }

  /** The first difference decides. */
  lemma {:induction false} LexAt(a: string, b: string, i: nat)
    requires i < |a| && i < |b| && a[..i] == b[..i] && a[i] != b[i]
    ensures LexLess(a, b) <==> a[i] < b[i]
  {
    assert a == a[..i] + a[i..] && b == b[..i] + b[i..];
    LexSameHead(a[..i], a[i..], b[i..]);
    assert a[i..] == [a[i]] + a[i + 1..] && b[i..] == [b[i]] + b[i + 1..];
    LexCons(a[i], a[i + 1..], b[i], b[i + 1..]);
  }

  /** How far two texts agree. */
  function Common(a: string, b: string): (i: nat)
    ensures i <= |a| && i <= |b| && a[..i] == b[..i]
    ensures i < |a| && i < |b| ==> a[i] != b[i]
  {
    if a == "" || b == "" || a[0] != b[0] then 0
    else
      var j := Common(a[1..], b[1..]);
      assert a[..j + 1] == [a[0]] + a[1..][..j] && b[..j + 1] == [b[0]] + b[1..][..j];
      j + 1
  }

  /** Zeros come before any other digits of the same length. */
  lemma {:induction false} ZerosFirst(z: string, x: string, i: nat)
    requires |z| == |x| && i < |x| && AllDigits(x) && x[i] != '0'
    requires forall k :: 0 <= k < |z| ==> z[k] == '0'
    ensures LexLess(z, x)
    decreases z
  {
    if x[0] == '0' {
      ZerosFirst(z[1..], x[1..], i - 1);
    }
  }

  /** A trimmed fraction that is a proper prefix of another belongs to the earlier nanosecond. */
  lemma PrefixIsEarlier(a: string, b: string)
    requires |a| == |b| && AllDigits(a) && AllDigits(b) && ProperPrefix(TrimRight(a, '0'), TrimRight(b, '0'))
    ensures LexLess(a, b)
  {
    var f, g := TrimRight(a, '0'), TrimRight(b, '0');
    var k := |f|;
    TrimmedZeros(a);
    assert a[..k] == f && b[..k] == g[..k] == f;
    assert b[|g| - 1] == g[|g| - 1] != '0';
    AfterHead(a, b, k, |g| - 1);
  }

  lemma AfterHead(a: string, b: string, k: nat, i: nat)
    requires |a| == |b| && AllDigits(b) && k <= i < |b| && b[i] != '0' && a[..k] == b[..k]
    requires forall j :: k <= j < |a| ==> a[j] == '0'
    ensures LexLess(a, b)
  {
    assert a == a[..k] + a[k..] && b == b[..k] + b[k..];
    ZerosFirst(a[k..], b[k..], i - k);
    LexSameHead(a[..k], a[k..], b[k..]);
  }

  /** In text the same pair is the other way round, since 'Z' comes after every digit. */
  lemma PrefixIsLaterText(f: string, g: string)
    requires ProperPrefix(f, g) && AllDigits(g)
    ensures LexLess(Tail(g), Tail(f)) && !LexLess(Tail(f), Tail(g))
  {
    if f == "" {
      assert Tail(g) == ['.'] + (g + "Z") && Tail(f) == ['Z'] + "";
      LexCons('.', g + "Z", 'Z', "");
    } else {
      var a, b := Tail(g), Tail(f);
      var i := |f| + 1;
      assert a[..i] == "." + f && b[..i] == "." + f;
      assert IsDigit(a[i]) && b[i] == 'Z';
      LexAt(a, b, i);
    }
    LexAsymmetric(Tail(g), Tail(f));
  }

  /** Where neither fraction is a prefix of the other, text and time agree. */
  lemma FractionsAgree(a: string, b: string)
    requires |a| == |b| && AllDigits(a) && AllDigits(b)
    requires var f, g := TrimRight(a, '0'), TrimRight(b, '0'); f != g && !ProperPrefix(f, g) && !ProperPrefix(g, f)
    ensures LexLess(Tail(TrimRight(a, '0')), Tail(TrimRight(b, '0'))) <==> LexLess(a, b)
  {
    var f, g := TrimRight(a, '0'), TrimRight(b, '0');
    var i := Common(f, g);
    assert i < |f| && i < |g|;
    assert a[..i] == f[..i] && b[..i] == g[..i];
    LexAt(a, b, i);
    TailsDiffer(f, g, i);
  }

  lemma TailsDiffer(f: string, g: string, i: nat)
    requires i < |f| && i < |g| && f[..i] == g[..i] && f[i] != g[i]
    ensures LexLess(Tail(f), Tail(g)) <==> f[i] < g[i]
  {
    var s, t := Tail(f), Tail(g);
    assert s[..i + 1] == "." + f[..i] && t[..i + 1] == "." + g[..i];
    assert s[i + 1] == f[i] && t[i + 1] == g[i];
    LexAt(s, t, i + 1);
  }

  lemma SameFraction(a: string, b: string)
    requires |a| == |b| && TrimRight(a, '0') == TrimRight(b, '0')
    ensures a == b
  {
    TrimmedZeros(a);
    TrimmedZeros(b);
    var k := |TrimRight(a, '0')|;
    assert a == a[..k] + a[k..] && b == b[..k] + b[k..];
  }

  /** Within one second, the text order of the tails is the nanosecond order unless one fraction is a prefix of the other. */
  lemma TailOrder(m: nat, n: nat)
    requires m < 1_000_000_000 && n < 1_000_000_000
    ensures var f, g := TrimRight(Pad(m, 9), '0'), TrimRight(Pad(n, 9), '0');
            (LexLess(Tail(f), Tail(g)) <==> m < n) <==> !ProperPrefix(f, g) && !ProperPrefix(g, f)
  {
    var a, b := Pad(m, 9), Pad(n, 9);
    var f, g := TrimRight(a, '0'), TrimRight(b, '0');
    NanoFits(m);
    NanoFits(n);
    PadOrder(m, n, 9);
    PadOrder(n, m, 9);
    if f == g {
      SameFraction(a, b);
      LexIrreflexive(Tail(f));
    } else if ProperPrefix(f, g) {
      PrefixIsEarlier(a, b);
      PrefixIsLaterText(f, g);
    } else if ProperPrefix(g, f) {
      PrefixIsEarlier(b, a);
      PrefixIsLaterText(g, f);
    } else {
      FractionsAgree(a, b);
    }
  }

  // ---------------------------------------------------------------- the results

  predicate SameSecond(a: Civil, b: Civil) { Fields(a) == Fields(b) }

  /** Across whole seconds, the text sorts by time. */
  lemma TextOrderAcrossSeconds(a: Civil, b: Civil)
    requires Valid(a) && Valid(b) && !SameSecond(a, b)
    ensures LexLess(Stamp(a), Stamp(b)) <==> Instant(a) < Instant(b)
  {
    FieldsFit(a);
    FieldsFit(b);
    HeadOrder(Fields(a), Fields(b), Widths(), Separators());
    var ha, hb := HeadText(Fields(a), Widths(), Separators()), HeadText(Fields(b), Widths(), Separators());
    LexConcat(ha, Tail(Fraction(a)), hb, Tail(Fraction(b)));
    SecondsOrder(a, b);
  }

  /**
   * The exact condition: text order is time order unless, inside one second, one trimmed fraction is a proper
   * prefix of the other.
   */
  lemma TextOrderExactly(a: Civil, b: Civil)
    requires Valid(a) && Valid(b)
    ensures (LexLess(Stamp(a), Stamp(b)) <==> Instant(a) < Instant(b)) <==>
            !(SameSecond(a, b) && (ProperPrefix(Fraction(a), Fraction(b)) || ProperPrefix(Fraction(b), Fraction(a))))
  {
    if SameSecond(a, b) {
      SecondsOrder(a, b);
      LexSameHead(HeadText(Fields(a), Widths(), Separators()), Tail(Fraction(a)), Tail(Fraction(b)));
      TailOrder(a.nano, b.nano);
    } else {
      TextOrderAcrossSeconds(a, b);
    }
  }

  /** Times a second or more apart never compare the wrong way. */
  lemma SecondApart(a: Civil, b: Civil)
    requires Valid(a) && Valid(b) && Instant(b) - Instant(a) >= SECOND
    ensures LexLess(Stamp(a), Stamp(b)) && !LexLess(Stamp(b), Stamp(a))
  {
    SecondsOrder(a, b);
    TextOrderAcrossSeconds(a, b);
    LexAsymmetric(Stamp(a), Stamp(b));
  }

  /** What a text cutoff deletes: everything a second older, and nothing a second newer. */
  lemma CutoffWithinSecond(seen: Civil, before: Civil)
    requires Valid(seen) && Valid(before)
    ensures Instant(before) - Instant(seen) >= SECOND ==> LexLess(Stamp(seen), Stamp(before))
    ensures LexLess(Stamp(seen), Stamp(before)) ==> Instant(seen) < Instant(before) + SECOND
  {
    if Instant(before) - Instant(seen) >= SECOND {
      SecondApart(seen, before);
    } else if Instant(seen) >= Instant(before) + SECOND {
      SecondApart(before, seen);
    }
  }

  /** pruneDeliveries: DELETE ... WHERE seen_at < cutoff, compared as text. */
  function PruneDeliveries(seen: map<string, Civil>, before: Civil): map<string, Civil> {
    map id | id in seen && !LexLess(Stamp(seen[id]), Stamp(before)) :: seen[id]
  }

  /** Delivery pruning is right to within a second: an id a second older goes, an id a second newer stays. */
  lemma PruneWithinSecond(seen: map<string, Civil>, before: Civil, id: string)
    requires id in seen && Valid(seen[id]) && Valid(before)
    ensures Instant(before) - Instant(seen[id]) >= SECOND ==> id !in PruneDeliveries(seen, before)
    ensures Instant(seen[id]) - Instant(before) >= SECOND ==> id in PruneDeliveries(seen, before)
  {
    CutoffWithinSecond(seen[id], before);
  }

  lemma {:induction false} PadZero(w: nat)
    ensures forall i :: 0 <= i < w ==> Pad(0, w)[i] == '0'
  {
    if w > 0 {
      PadZero(w - 1);
    }
  }

  lemma NoFraction()
    ensures TrimRight(Pad(0, 9), '0') == ""
  {
    PadZero(9);
  }

  /** A second is needed: for every shorter window some moment deletes a row written at that very moment. */
  lemma ShortWindowEvictsFresh(window: nat)
    requires 0 < window < 1_000_000_000
    ensures exists now, cutoff :: Valid(now) && Valid(cutoff) && Instant(now) - Instant(cutoff) == window && LexLess(Stamp(now), Stamp(cutoff))
  {
    var cutoff := Civil(2024, 1, 2, 3, 4, 5, 0);
    var now := cutoff.(nano := window);
    WindowText(now, cutoff);
    assert Seconds(now) == Seconds(cutoff);
  }

  lemma WindowText(now: Civil, cutoff: Civil)
    requires Valid(now) && now.nano > 0 && cutoff == now.(nano := 0)
    ensures LexLess(Stamp(now), Stamp(cutoff))
  {
    NoFraction();
    if Fraction(now) == "" {
      SameFraction(Pad(now.nano, 9), Pad(0, 9));
      NanoFits(now.nano);
      PadOrder(now.nano, 0, 9);
    }
    assert ProperPrefix("", Fraction(now));
    PrefixIsLaterText("", Fraction(now));
    LexSameHead(HeadText(Fields(now), Widths(), Separators()), Tail(Fraction(now)), Tail(""));
  }
}
