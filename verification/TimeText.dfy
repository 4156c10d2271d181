/** The text of a time and the calendar behind it, in figures (core/time.go:5-7 and Go's time.RFC3339Nano, in UTC). */
module TimeText {
  import opened Text
  import opened Timestamps

  // ---------------------------------------------------------------- the text

  lemma {:induction false} PadReads(n: nat, w: nat)
    requires n < Pow10(w)
    ensures Value(Pad(n, w)) == n
  {
    if w > 0 {
      PadReads(n / 10, w - 1);
      assert Pad(n, w)[..w - 1] == Pad(n / 10, w - 1);
    }
  }

  /** Four digits and five times two, each after its own separator, read back as the fields they are of. */
  lemma StampText(t: Civil)
    requires Valid(t)
    ensures Stamp(t) == Pad(t.year, 4) + "-" + Pad(t.month, 2) + "-" + Pad(t.day, 2) + "T" + Pad(t.hour, 2) + ":"
                        + Pad(t.minute, 2) + ":" + Pad(t.second, 2) + Tail(Fraction(t))
    ensures Value(Pad(t.year, 4)) == t.year && Value(Pad(t.month, 2)) == t.month && Value(Pad(t.day, 2)) == t.day
    ensures Value(Pad(t.hour, 2)) == t.hour && Value(Pad(t.minute, 2)) == t.minute && Value(Pad(t.second, 2)) == t.second
  {
    assert Pow10(2) == 100 && Pow10(4) == 10000;
    PadReads(t.year, 4);
    PadReads(t.month, 2);
    PadReads(t.day, 2);
    PadReads(t.hour, 2);
    PadReads(t.minute, 2);
    PadReads(t.second, 2);
    HeadIs(Pad(t.year, 4), Pad(t.month, 2), Pad(t.day, 2), Pad(t.hour, 2), Pad(t.minute, 2), Pad(t.second, 2), Tail(Fraction(t)), t);
  }

  lemma HeadIs(y: string, m: string, d: string, h: string, mi: string, s: string, tail: string, t: Civil)
    requires y == Pad(t.year, 4) && m == Pad(t.month, 2) && d == Pad(t.day, 2)
    requires h == Pad(t.hour, 2) && mi == Pad(t.minute, 2) && s == Pad(t.second, 2)
    ensures HeadText(Fields(t), Widths(), Separators()) + tail == y + "-" + m + "-" + d + "T" + h + ":" + mi + ":" + s + tail
  {
    var f, w, p := Fields(t), Widths(), Separators();
    assert HeadText(f[6..], w[6..], p[6..]) == "";
    HeadStep(f, w, p, 5);
    HeadStep(f, w, p, 4);
    HeadStep(f, w, p, 3);
    HeadStep(f, w, p, 2);
    HeadStep(f, w, p, 1);
    HeadStep(f, w, p, 0);
    assert f[0..] == f && w[0..] == w && p[0..] == p;
    assert s + ("" + "") == s;
    Chain(y, m, d, h, mi, s);
  }

  lemma HeadStep(f: seq<nat>, w: seq<nat>, p: seq<string>, i: nat)
    requires |f| == |w| == |p| && i < |f|
    ensures HeadText(f[i..], w[i..], p[i..]) == Pad(f[i], w[i]) + (p[i] + HeadText(f[i + 1..], w[i + 1..], p[i + 1..]))
  {
    assert f[i..][1..] == f[i + 1..] && w[i..][1..] == w[i + 1..] && p[i..][1..] == p[i + 1..];
  }

  lemma Chain(y: string, m: string, d: string, h: string, mi: string, s: string)
    ensures y + ("-" + (m + ("-" + (d + ("T" + (h + (":" + (mi + (":" + s)))))))))
         == y + "-" + m + "-" + d + "T" + h + ":" + mi + ":" + s
  {}

  /** The fraction: none for a whole second, else a dot and up to nine digits that end in no zero and are the nanoseconds. */
  lemma FractionText(t: Civil)
    requires Valid(t)
    ensures t.nano == 0 <==> Tail(Fraction(t)) == "Z"
    ensures t.nano > 0 ==> Tail(Fraction(t)) == "." + Fraction(t) + "Z"
    ensures Fraction(t) <= Pad(t.nano, 9) && (Fraction(t) == "" || Fraction(t)[|Fraction(t)| - 1] != '0')
    ensures forall i :: |Fraction(t)| <= i < 9 ==> Pad(t.nano, 9)[i] == '0'
    ensures Value(Pad(t.nano, 9)) == t.nano
  {
    assert Pow10(9) == 1_000_000_000;
    PadReads(t.nano, 9);
    Trimmed(Pad(t.nano, 9));
    if t.nano == 0 {
      NoFraction();
    } else if Fraction(t) == "" {
      ZerosAreZero(Pad(t.nano, 9));
    }
  }

  lemma {:induction false} Trimmed(s: string)
    ensures forall i :: |TrimRight(s, '0')| <= i < |s| ==> s[i] == '0'
    decreases s
  {
    if s != "" && s[|s| - 1] == '0' {
      Trimmed(s[..|s| - 1]);
      assert forall i :: 0 <= i < |s| - 1 ==> s[..|s| - 1][i] == s[i];
    }
  }

  lemma {:induction false} ZerosAreZero(s: string)
    requires AllDigits(s) && forall i :: 0 <= i < |s| ==> s[i] == '0'
    ensures Value(s) == 0
    decreases s
  {
    if s != "" {
      ZerosAreZero(s[..|s| - 1]);
    }
  }

  // ---------------------------------------------------------------- the calendar

  lemma YearLength(y: nat)
    ensures DaysInMonths(y, 12) == if Leap(y) then 366 else 365
  {
    DaysToMonth(y);
  }

  /** The days of a year before each month. */
  lemma DaysToMonth(y: nat)
    ensures var l := if DaysInMonths(y, 2) == 60 then 1 else 0;
            && (DaysInMonths(y, 2) == 59 || DaysInMonths(y, 2) == 60)
            && DaysInMonths(y, 1) == 31 && DaysInMonths(y, 3) == 90 + l && DaysInMonths(y, 4) == 120 + l
            && DaysInMonths(y, 5) == 151 + l && DaysInMonths(y, 6) == 181 + l && DaysInMonths(y, 7) == 212 + l
            && DaysInMonths(y, 8) == 243 + l && DaysInMonths(y, 9) == 273 + l && DaysInMonths(y, 10) == 304 + l
            && DaysInMonths(y, 11) == 334 + l && DaysInMonths(y, 12) == 365 + l
  {
    assert DaysInMonths(y, 0) == 0;
    var d1 := DaysInMonths(y, 1);
    var d2 := DaysInMonths(y, 2);
    var d3 := DaysInMonths(y, 3);
    var d4 := DaysInMonths(y, 4);
    var d5 := DaysInMonths(y, 5);
    var d6 := DaysInMonths(y, 6);
    var d7 := DaysInMonths(y, 7);
    var d8 := DaysInMonths(y, 8);
    var d9 := DaysInMonths(y, 9);
    var d10 := DaysInMonths(y, 10);
    var d11 := DaysInMonths(y, 11);
    assert d1 == 31;
  }

  lemma Fourth(n: nat)
    ensures (n + 4) / 4 == (n + 3) / 4 + if n % 4 == 0 then 1 else 0
  {}

  lemma Hundredth(n: nat)
    ensures (n + 100) / 100 == (n + 99) / 100 + if n % 100 == 0 then 1 else 0
  {}

  lemma FourHundredth(n: nat)
    ensures (n + 400) / 400 == (n + 399) / 400 + if n % 400 == 0 then 1 else 0
  {}

  lemma FourTimes(r: nat)
    ensures (4 * r) % 4 == 0
  {}

  lemma HundredByFour(n: nat, q: nat)
    requires n == 100 * q
    ensures n % 4 == 0
  {
    FourTimes(25 * q);
  }

  lemma ManyByHundred(n: nat)
    requires n % 400 == 0
    ensures n % 100 == 0
  {
    var q := n / 400;
    assert n == 100 * (4 * q);
  }

  /** Every fourth year has a day more, save every hundredth, save every four hundredth. */
  function LeapsBefore(y: nat): int { (y + 3) / 4 - (y + 99) / 100 + (y + 399) / 400 }

  lemma YearAdds(y: nat, days: nat)
    requires y > 0 && days == DaysInMonths(y - 1, 12)
    ensures DaysBeforeYear(y) == DaysBeforeYear(y - 1) + days
  {}

  lemma {:induction false} DaysClosed(y: nat, leaps: int)
    requires leaps == LeapsBefore(y)
    ensures DaysBeforeYear(y) == 365 * y + leaps
  {
    if y > 0 {
      var before := LeapsBefore(y - 1);
      DaysClosed(y - 1, before);
      OneYearMore(y - 1, before, leaps);
      YearLength(y - 1);
      YearAdds(y, if Leap(y - 1) then 366 else 365);
    }
  }

  lemma OneYearMore(n: nat, before: int, after: int)
    requires before == LeapsBefore(n) && after == LeapsBefore(n + 1)
    ensures after == before + if Leap(n) then 1 else 0
  {
    Fourth(n);
    Hundredth(n);
    FourHundredth(n);
    if n % 100 == 0 {
      HundredByFour(n, n / 100);
    }
    if n % 400 == 0 {
      ManyByHundred(n);
    }
  }

  /** Seconds, from the calendar. */
  lemma SecondsAre(t: Civil)
    requires Valid(t)
    ensures Seconds(t) == (365 * t.year + LeapsBefore(t.year) + DaysInMonths(t.year, t.month - 1) + t.day - 1) * 86400
                          + t.hour * 3600 + t.minute * 60 + t.second
    ensures Instant(t) == Seconds(t) * 1000000000 + t.nano
  {
    DaysClosed(t.year, LeapsBefore(t.year));
  }
}
