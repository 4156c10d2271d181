/** The optional value used wherever the program has a nil pointer or an SQL NULL. */
module Options {
  datatype Option<+T> = None | Some(value: T)
}

module Sequences {
  /** Concatenation groups either way. */
  lemma Regroup<T>(a: seq<T>, b: seq<T>, c: seq<T>)
    ensures a + (b + c) == (a + b) + c
    ensures a + [] == a
  {}
}

/** A loop that takes the rows of a query one by one leaves a list of them, each once, in some order. */
module RowLists {
  ghost predicate Lists(out: seq<string>, rows: set<string>) {
    && (forall i, j :: 0 <= i < j < |out| ==> out[i] != out[j])
    && (forall k :: k in out <==> k in rows)
  }

  function Elems(out: seq<string>): set<string> { set k | k in out }

  /** Taking one row off what is left adds it to what is done. */
  lemma TakeOne(rows: set<string>, rest: set<string>, k: string)
    requires k in rest && rest <= rows
    ensures rows - (rest - {k}) == (rows - rest) + {k} && k !in rows - rest
    ensures rest - {k} <= rows && |rest - {k}| == |rest| - 1
  {}

  /** What is listed when a loop stops, early or not. */
  lemma Stopped(out: seq<string>, rows: set<string>, rest: set<string>)
    requires rest <= rows && |out| + |rest| == |rows| && Lists(out, rows - rest)
    ensures Elems(out) == rows - rest && Elems(out) <= rows && Lists(out, Elems(out))
    ensures |out| == |rows| ==> Elems(out) == rows
  {
    assert |out| == |rows| ==> rest == {};
  }

  lemma ListsMore(out: seq<string>, rows: set<string>, k: string)
    requires Lists(out, rows) && k !in rows
    ensures Lists(out + [k], rows + {k})
  {}
}

/** The string operations of Go's strings and strconv packages that the models need. */
module Text {
  import opened Options

  /** strings.IndexByte: the first position of `c`, or -1. */
  function IndexOf(s: string, c: char): (i: int)
    ensures -1 <= i < |s|
    ensures i >= 0 ==> s[i] == c && c !in s[..i]
    ensures i < 0 ==> c !in s
  {
    if s == "" then -1
    else if s[0] == c then 0
    else
      var i := IndexOf(s[1..], c);
      if i < 0 then -1 else assert s[..i + 1] == [s[0]] + s[1..][..i]; i + 1
  }

  /** strings.LastIndexByte: the last position of `c`, or -1. */
  function LastIndexOf(s: string, c: char): (i: int)
    ensures -1 <= i < |s|
    ensures i >= 0 ==> s[i] == c && c !in s[i + 1..]
    ensures i < 0 ==> c !in s
  {
    if s == "" then -1
    else if s[|s| - 1] == c then |s| - 1
    else
      var i := LastIndexOf(s[..|s| - 1], c);
      assert s == s[..|s| - 1] + [s[|s| - 1]];
      if i < 0 then -1 else assert s[i + 1..] == s[..|s| - 1][i + 1..] + [s[|s| - 1]]; i
  }

  /** The last separator is the one that was put in before a text without it. */
  lemma {:induction false} LastJoined(before: string, c: char, after: string)
    requires c !in after
    ensures var s := before + [c] + after; LastIndexOf(s, c) == |before| && s[..|before|] == before && s[|before| + 1..] == after
    decreases after
  {
    var s := before + [c] + after;
    if after != "" {
      var init := after[..|after| - 1];
      assert after == init + [after[|after| - 1]];
      LastJoined(before, c, init);
      assert s[..|s| - 1] == before + [c] + init;
    }
  }

  /** strings.Cut on a one-character separator; `after` is empty when the separator is absent. */
  datatype CutResult = CutResult(before: string, after: string, found: bool)

  function Cut(s: string, c: char): (r: CutResult)
    ensures c !in r.before
    ensures r.found <==> c in s
    ensures s == if r.found then r.before + [c] + r.after else r.before
  {
    var i := IndexOf(s, c);
    if i < 0 then CutResult(s, "", false) else CutResult(s[..i], s[i + 1..], true)
  }

  /** Cutting at the separator that was put in gives back both sides. */
  lemma CutJoined(before: string, c: char, after: string)
    requires c !in before
    ensures Cut(before + [c] + after, c) == CutResult(before, after, true)
  {
    var s := before + [c] + after;
    assert s[|before|] == c;
    assert forall j :: 0 <= j < |before| ==> s[j] == before[j];
    assert IndexOf(s, c) == |before|;
  }

  /** strings.Split on a one-character separator: always at least one piece. */
  function Split(s: string, c: char): (parts: seq<string>)
    ensures |parts| >= 1
    ensures forall p :: p in parts ==> c !in p
    decreases |s|
  {
    var i := IndexOf(s, c);
    if i < 0 then [s] else [s[..i]] + Split(s[i + 1..], c)
  }

  /** strings.Join with a one-character separator. */
  function Join(parts: seq<string>, c: char): string {
    if parts == [] then ""
    else if |parts| == 1 then parts[0]
    else parts[0] + [c] + Join(parts[1..], c)
  }

  lemma SplitJoined(first: string, c: char, rest: string)
    requires c !in first
    ensures Split(first + [c] + rest, c) == [first] + Split(rest, c)
  {
    CutJoined(first, c, rest);
    var s := first + [c] + rest;
    var i := IndexOf(s, c);
    assert s[..i] == first && s[i + 1..] == rest;
  }

  lemma {:induction false} SplitOfJoin(parts: seq<string>, c: char)
    requires parts != []
    requires forall p :: p in parts ==> c !in p
    ensures Split(Join(parts, c), c) == parts
  {
    assert c !in parts[0];
    if |parts| > 1 {
      SplitJoined(parts[0], c, Join(parts[1..], c));
      SplitOfJoin(parts[1..], c);
      assert parts == [parts[0]] + parts[1..];
    }
  }

  /** strings.TrimPrefix. */
  function TrimPrefix(s: string, prefix: string): string {
    if prefix <= s then s[|prefix|..] else s
  }

  /** strings.TrimRight with a one-character cutset. */
  function TrimRight(s: string, c: char): (r: string)
    ensures r <= s
    ensures r == "" || r[|r| - 1] != c
  {
    if s != "" && s[|s| - 1] == c then TrimRight(s[..|s| - 1], c) else s
  }

  /** unicode.IsSpace. */
  predicate IsSpace(c: char) {
    || '\t' <= c <= '\r'
    || c == ' '
    || c == '\U{85}' || c == '\U{A0}' || c == '\U{1680}'
    || '\U{2000}' <= c <= '\U{200A}'
    || c == '\U{2028}' || c == '\U{2029}' || c == '\U{202F}' || c == '\U{205F}' || c == '\U{3000}'
  }

  /** White space as the 25 code points of Unicode's White_Space property. */
  const SPACES: set<int> :=
    {9, 10, 11, 12, 13, 32, 133, 160, 5760, 8192, 8193, 8194, 8195, 8196, 8197, 8198, 8199, 8200,
     8201, 8202, 8232, 8233, 8239, 8287, 12288}

  lemma SpaceCodes(c: char)
    ensures IsSpace(c) <==> c as int in SPACES
  {
  }

  /** strings.TrimSpace(s) == "". */
  predicate Blank(s: string) {
    forall i :: 0 <= i < |s| ==> IsSpace(s[i])
  }

  predicate IsDigit(c: char) { '0' <= c <= '9' }

  predicate AllDigits(s: string) {
    forall i :: 0 <= i < |s| ==> IsDigit(s[i])
  }

  function Digit(d: nat): (c: char)
    requires d < 10
    ensures IsDigit(c) && DigitValue(c) == d
  {
    (('0' as int) + d) as char
  }

  function DigitValue(c: char): (d: nat)
    requires IsDigit(c)
    ensures d < 10
  {
    c as int - '0' as int
  }

  /** strconv.Itoa of a natural number. */
  function Digits(n: nat): (s: string)
    ensures s != "" && AllDigits(s)
  {
    if n < 10 then [Digit(n)] else Digits(n / 10) + [Digit(n % 10)]
  }

  /** The number a digit string denotes. */
  function Value(s: string): nat
    requires AllDigits(s)
  {
    if s == "" then 0 else 10 * Value(s[..|s| - 1]) + DigitValue(s[|s| - 1])
  }

  lemma {:induction false} ValueOfDigits(n: nat)
    ensures Value(Digits(n)) == n
  {
    if n >= 10 {
      ValueOfDigits(n / 10);
      var s := Digits(n);
      assert s[..|s| - 1] == Digits(n / 10);
    } else {
      assert [Digit(n)][..0] == "";
    }
  }

  /** fmt's %d. */
  function Itoa(n: int): (s: string)
    ensures s != ""
    ensures forall i :: 0 <= i < |s| ==> s[i] == '-' || IsDigit(s[i])
  {
    if n < 0 then "-" + Digits(-n) else Digits(n)
  }

  const MAX_INT64: int := 0x7FFF_FFFF_FFFF_FFFF
  const MIN_INT64: int := -0x8000_0000_0000_0000

  /** strconv.Atoi: an optional sign, then decimal digits, within 64 bits. */
  function Atoi(s: string): Option<int> {
    var neg := s != "" && s[0] == '-';
    var body := if s != "" && (s[0] == '-' || s[0] == '+') then s[1..] else s;
    if body == "" || !AllDigits(body) then None
    else
      var n: int := if neg then -(Value(body) as int) else Value(body);
      if MIN_INT64 <= n <= MAX_INT64 then Some(n) else None
  }

  lemma AtoiOfItoa(n: int)
    requires MIN_INT64 <= n <= MAX_INT64
    ensures Atoi(Itoa(n)) == Some(n)
  {
    if n < 0 {
      ValueOfDigits(-n);
      assert Itoa(n)[1..] == Digits(-n);
    } else {
      ValueOfDigits(n);
      assert IsDigit(Itoa(n)[0]);
    }
  }

  lemma DigitsRead(m: nat)
    ensures Atoi(Digits(m)) == if m <= 9223372036854775807 then Some(m) else None
    ensures Atoi("+" + Digits(m)) == Atoi(Digits(m))
  {
    ValueOfDigits(m);
    assert IsDigit(Digits(m)[0]);
    assert ("+" + Digits(m))[1..] == Digits(m);
  }

  lemma NegativeRead(m: nat)
    ensures Atoi("-" + Digits(m)) == if m <= 9223372036854775808 then Some(-(m as int)) else None
  {
    ValueOfDigits(m);
    assert ("-" + Digits(m))[1..] == Digits(m);
  }

  /** Which printed numbers are read back: those of 64 bits, and a plus sign changes nothing. */
  lemma AtoiExactly(n: int)
    ensures Atoi(Itoa(n)) == if -9223372036854775808 <= n <= 9223372036854775807 then Some(n) else None
    ensures n >= 0 ==> Atoi("+" + Itoa(n)) == Atoi(Itoa(n))
  {
    if n < 0 {
      NegativeRead(-n);
    } else {
      DigitsRead(n);
    }
  }

  lemma ItoaInjective(m: int, n: int)
    requires Itoa(m) == Itoa(n)
    ensures m == n
  {
    assert Itoa(m)[0] == '-' <==> m < 0;
    assert Itoa(n)[0] == '-' <==> n < 0;
    if m < 0 {
      assert Digits(-m) == Itoa(m)[1..] && Digits(-n) == Itoa(n)[1..];
      DigitsInjective(-m, -n);
    } else {
      DigitsInjective(m, n);
    }
  }

  lemma DigitsInjective(m: nat, n: nat)
    requires Digits(m) == Digits(n)
    ensures m == n
  {
    ValueOfDigits(m);
    ValueOfDigits(n);
  }
}
