/**
 * plugins/github/store.go:214-246: escapeLike and nodesByKind over SQLite's LIKE with ESCAPE '\'
 * ('%' any run, '_' any one character, letters compared without regard to ASCII case).
 */
module GithubLike {
  import opened Text
  import opened GithubKeys
  import opened GithubStore

  function Fold(c: char): char { if 'A' <= c <= 'Z' then (c as int + 32) as char else c }

  /** Whether `s` matches the pattern. A pattern that ends in a lone escape matches nothing. */
  predicate Like(pattern: string, s: string)
    decreases |pattern| + |s|
  {
    if pattern == "" then s == ""
    else if pattern[0] == '%' then Like(pattern[1..], s) || (s != "" && Like(pattern, s[1..]))
    else if pattern[0] == '\\' then |pattern| > 1 && s != "" && Fold(pattern[1]) == Fold(s[0]) && Like(pattern[2..], s[1..])
    else if pattern[0] == '_' then s != "" && Like(pattern[1..], s[1..])
    else s != "" && Fold(pattern[0]) == Fold(s[0]) && Like(pattern[1..], s[1..])
  }

  function EscapeChar(c: char): string { if c == '\\' || c == '%' || c == '_' then ['\\', c] else [c] }

  function EscapeLike(s: string): string {
    if s == "" then "" else EscapeChar(s[0]) + EscapeLike(s[1..])
  }

  function FoldText(s: string): (r: string)
    ensures |r| == |s| && forall i :: 0 <= i < |s| ==> r[i] == Fold(s[i])
  {
    seq(|s|, i requires 0 <= i < |s| => Fold(s[i]))
  }

  lemma {:induction false} PercentMatchesAll(s: string)
    ensures Like("%", s)
  {
    if s != "" {
      PercentMatchesAll(s[1..]);
    }
  }

  lemma LikeStep(c: char, pattern: string, s: string)
    ensures Like(EscapeChar(c) + pattern, s) <==> s != "" && Fold(c) == Fold(s[0]) && Like(pattern, s[1..])
  {
    var whole := EscapeChar(c) + pattern;
    if c == '\\' || c == '%' || c == '_' {
      assert whole[0] == '\\' && whole[1] == c && whole[2..] == pattern;
    } else {
      assert whole[0] == c && whole[1..] == pattern;
    }
  }

  lemma FoldPrefixStep(p: string, k: string)
    requires p != ""
    ensures FoldText(p) <= FoldText(k) <==> k != "" && Fold(p[0]) == Fold(k[0]) && FoldText(p[1..]) <= FoldText(k[1..])
  {
    if k != "" {
      assert FoldText(p) == [Fold(p[0])] + FoldText(p[1..]);
      assert FoldText(k) == [Fold(k[0])] + FoldText(k[1..]);
    }
  }

  /** LIKE with escaping is the prefix test up to ASCII case, for every prefix and every key. */
  lemma {:induction false} LikeIsPrefix(p: string, k: string)
    ensures Like(EscapeLike(p) + "%", k) <==> FoldText(p) <= FoldText(k)
    decreases p
  {
    if p == "" {
      assert EscapeLike(p) + "%" == "%";
      PercentMatchesAll(k);
    } else {
      assert EscapeLike(p) + "%" == EscapeChar(p[0]) + (EscapeLike(p[1..]) + "%");
      LikeStep(p[0], EscapeLike(p[1..]) + "%", k);
      FoldPrefixStep(p, k);
      if k != "" {
        LikeIsPrefix(p[1..], k[1..]);
      }
    }
  }

  /** Without the escape a repository named a_b would also match axb. */
  lemma UnescapedOvermatches()
    ensures Like("a_b%", "axb") && !Like(EscapeLike("a_b") + "%", "axb")
  {
    PercentMatchesAll("");
    assert Like("%", "");
    assert Like("b%", "b");
    assert Like("_b%", "xb");
    LikeIsPrefix("a_b", "axb");
    assert FoldText("a_b")[1] == '_' && FoldText("axb")[1] == 'x';
  }

  // ---------------------------------------------------------------- nodesByKind

  function Prefix(kind: string, scope: string): string { kind + ":" + scope + "#" }

  predicate Chosen(kind: string, scope: string, row: (string, Node)) {
    row.1.Object? && Like(EscapeLike(Prefix(kind, scope)) + "%", row.0)
  }

  /** The rows of a scan that the query returns, in scan order. */
  function Select(kind: string, scope: string, rows: seq<(string, Node)>): seq<(string, Node)> {
    if rows == [] then []
    else
      var last := rows[|rows| - 1];
      Select(kind, scope, rows[..|rows| - 1]) + (if Chosen(kind, scope, last) then [last] else [])
  }

  method NodesByKind(kind: string, scope: string, rows: seq<(string, Node)>) returns (out: seq<(string, Node)>)
    ensures out == Select(kind, scope, rows)
  {
    out := [];
    var pattern := EscapeLike(kind + ":" + scope + "#") + "%";
    for i := 0 to |rows|
      invariant out == Select(kind, scope, rows[..i])
    {
      assert rows[..i + 1][..i] == rows[..i];
      if rows[i].1.Object? && Like(pattern, rows[i].0) {
        out := out + [rows[i]];
      }
    }
    assert rows[..|rows|] == rows;
  }

  lemma {:induction false} SelectExactly(kind: string, scope: string, rows: seq<(string, Node)>, row: (string, Node))
    ensures row in Select(kind, scope, rows) <==>
            row in rows && row.1.Object? && FoldText(Prefix(kind, scope)) <= FoldText(row.0)
    decreases rows
  {
    if rows != [] {
      var n := |rows| - 1;
      SelectExactly(kind, scope, rows[..n], row);
      assert rows == rows[..n] + [rows[n]];
      LikeIsPrefix(Prefix(kind, scope), rows[n].0);
    }
  }

  /** And in scan order: one row more is one match more at the end, or none. */
  lemma SelectMore(kind: string, scope: string, rows: seq<(string, Node)>, row: (string, Node))
    ensures Select(kind, scope, []) == []
    ensures Select(kind, scope, rows + [row]) ==
            if row.1.Object? && FoldText(Prefix(kind, scope)) <= FoldText(row.0) then Select(kind, scope, rows) + [row]
            else Select(kind, scope, rows)
  {
    LikeIsPrefix(Prefix(kind, scope), row.0);
    assert (rows + [row])[..|rows|] == rows;
    assert Select(kind, scope, rows) + [] == Select(kind, scope, rows);
  }

  /** A numbered object key, as the kind table builds it for issues and pull requests. */
  function NumberedKey(kind: string, o: string, r: string, disc: string): string { kind + ":" + (o + "/" + (r + "#" + disc)) }

  predicate SameText(a: string, b: string) { FoldText(a) == FoldText(b) }

  lemma FoldConcat(a: string, b: string)
    ensures FoldText(a + b) == FoldText(a) + FoldText(b)
  {}

  lemma FoldKeepsAbsence(s: string, c: char)
    requires c !in s && (c == ':' || c == '/' || c == '#')
    ensures c !in FoldText(s)
  {
    forall i | 0 <= i < |s| ensures FoldText(s)[i] != c {
      assert s[i] in s;
    }
  }

  /** Two texts with a separator each, one a prefix of the other: the parts before it are equal. */
  lemma PrefixCut(a: string, c: char, rest: string, b: string, more: string)
    requires c !in a && c !in b
    ensures a + [c] + rest <= b + [c] + more <==> a == b && rest <= more
  {
    var x, y := a + [c] + rest, b + [c] + more;
    if x <= y {
      var tail := y[|x|..];
      Regroup(a + [c], rest, tail, y);
      CutJoined(a, c, rest + tail);
      CutJoined(b, c, more);
    } else if a == b && rest <= more {
      Regroup(a + [c], rest, more[|rest|..], y);
    }
  }

  lemma Regroup(head: string, rest: string, tail: string, whole: string)
    ensures whole == head + rest + tail <==> whole == head + (rest + tail)
  {
    assert head + rest + tail == head + (rest + tail);
  }

  lemma FoldPart(a: string, c: char, rest: string)
    requires c == ':' || c == '/' || c == '#'
    ensures FoldText(a + [c] + rest) == FoldText(a) + [c] + FoldText(rest)
  {
    FoldConcat(a + [c], rest);
    FoldConcat(a, [c]);
    assert FoldText([c]) == [c];
  }

  lemma PartMatches(a: string, c: char, rest: string, b: string, more: string)
    requires c == ':' || c == '/' || c == '#'
    requires c !in a && c !in b
    ensures FoldText(a + [c] + rest) <= FoldText(b + [c] + more) <==> SameText(a, b) && FoldText(rest) <= FoldText(more)
  {
    FoldPart(a, c, rest);
    FoldPart(b, c, more);
    FoldKeepsAbsence(a, c);
    FoldKeepsAbsence(b, c);
    PrefixCut(FoldText(a), c, FoldText(rest), FoldText(b), FoldText(more));
  }

  /**
   * nodesByKind for a repository returns a numbered object exactly when its kind, owner and repo are
   * the ones asked for, up to ASCII case: never a sibling repository, whatever characters names hold.
   */
  lemma KindScopeExact(kind: string, o: string, r: string, kind': string, o': string, r': string, disc: string)
    requires ':' !in kind && ':' !in kind' && SafeName(o) && SafeName(r) && SafeName(o') && SafeName(r')
    ensures FoldText(Prefix(kind, o + "/" + r)) <= FoldText(NumberedKey(kind', o', r', disc)) <==>
            SameText(kind, kind') && SameText(o, o') && SameText(r, r')
  {
    SafeNameIsClean(o);
    SafeNameIsClean(r);
    SafeNameIsClean(o');
    SafeNameIsClean(r');
    assert Prefix(kind, o + "/" + r) == kind + ":" + (o + "/" + (r + "#" + ""));
    PartMatches(kind, ':', o + "/" + (r + "#" + ""), kind', o' + "/" + (r' + "#" + disc));
    PartMatches(o, '/', r + "#" + "", o', r' + "#" + disc);
    PartMatches(r, '#', "", r', disc);
    assert FoldText("") <= FoldText(disc);
  }
}
