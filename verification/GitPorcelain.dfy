/** plugins/git/worktree.go: the parser of `git worktree list --porcelain`. */
module GitPorcelain {
  import opened Options
  import opened Sequences
  import opened Text

  /** One listed worktree; `branch` is empty when detached or bare. */
  datatype Worktree = Worktree(path: string, branch: string, head: string, detached: bool, bare: bool)

  const HEADS_PREFIX := "refs/heads/"

  // ---------------------------------------------------------------- the parser

  /** What the loop carries: the finished rows and the stanza being read. */
  datatype Scan = Scan(out: seq<Worktree>, cur: Option<Worktree>)

  function Flush(s: Scan): Scan {
    if s.cur.Some? then Scan(s.out + [s.cur.value], None) else s
  }

  /** One keyed line of the stanza being read; unknown keys change nothing. */
  function Field(w: Worktree, key: string, val: string): Worktree {
    if key == "HEAD" then w.(head := val)
    else if key == "branch" then w.(branch := TrimPrefix(val, HEADS_PREFIX))
    else if key == "detached" then w.(detached := true)
    else if key == "bare" then w.(bare := true)
    else w
  }

  function Keyed(s: Scan, key: string, val: string): Scan {
    if key == "worktree" then Scan(Flush(s).out, Some(Worktree(val, "", "", false, false)))
    else if s.cur.Some? then s.(cur := Some(Field(s.cur.value, key, val)))
    else s
  }

  function ScanLine(s: Scan, raw: string): Scan {
    var line := TrimRight(raw, '\r');
    if Blank(line) then Flush(s) else var kv := Cut(line, ' '); Keyed(s, kv.before, kv.after)
  }

  function ScanLines(s: Scan, lines: seq<string>): Scan
    decreases lines
  {
    if lines == [] then s else ScanLines(ScanLine(s, lines[0]), lines[1..])
  }

  function ParseWorktreeList(porcelain: string): seq<Worktree> {
    Flush(ScanLines(Scan([], None), Split(porcelain, '\n'))).out
  }

  /** The parser as written: one pass over the lines with a current stanza. */
  method ReadWorktreeList(porcelain: string) returns (out: seq<Worktree>)
    ensures out == ParseWorktreeList(porcelain)
  {
    out := [];
    var cur: Option<Worktree> := None;
    var lines := Split(porcelain, '\n');
    var i := 0;
    while i < |lines|
      invariant 0 <= i <= |lines|
      invariant ScanLines(Scan([], None), lines) == ScanLines(Scan(out, cur), lines[i..])
    {
      assert lines[i..][0] == lines[i] && lines[i..][1..] == lines[i + 1..];
      var line := TrimRight(lines[i], '\r');
      i := i + 1;
      if Blank(line) {
        if cur.Some? {
          out, cur := out + [cur.value], None;
        }
        continue;
      }
      var kv := Cut(line, ' ');
      if kv.before == "worktree" {
        if cur.Some? {
          out := out + [cur.value];
        }
        cur := Some(Worktree(kv.after, "", "", false, false));
      } else if cur.Some? {
        cur := Some(Field(cur.value, kv.before, kv.after));
      }
    }
    if cur.Some? {
      out := out + [cur.value];
    }
  }

  // ---------------------------------------------------------------- the printed form

  /** A line of a stanza after its `worktree` line. */
  datatype Attr = Head(sha: string) | Ref(ref: string) | Detached | Bare | Other(line: string)

  /** A stanza: its path, then attribute lines in any order, repeated or unknown. */
  datatype Stanza = Stanza(path: string, attrs: seq<Attr>)

  /** A line of one key and its value. */
  function KeyText(key: string, val: string): string { key + " " + val }

  function AttrLine(a: Attr): string {
    match a
    case Head(sha) => KeyText("HEAD", sha)
    case Ref(ref) => KeyText("branch", ref)
    case Detached => "detached"
    case Bare => "bare"
    case Other(line) => line
  }

  function AttrLines(attrs: seq<Attr>): seq<string> {
    if attrs == [] then [] else [AttrLine(attrs[0])] + AttrLines(attrs[1..])
  }

  /** git ends every stanza with an empty line. */
  function StanzaLines(s: Stanza): seq<string> {
    [KeyText("worktree", s.path)] + AttrLines(s.attrs) + [""]
  }

  function Document(stanzas: seq<Stanza>): seq<string> {
    if stanzas == [] then [""]
    else StanzaLines(stanzas[0]) + Document(stanzas[1..])
  }

  function Print(stanzas: seq<Stanza>): string { Join(Document(stanzas), '\n') }

  /** What a stanza says, read attribute by attribute without any text. */
  function Apply(w: Worktree, a: Attr): Worktree {
    match a
    case Head(sha) => w.(head := sha)
    case Ref(ref) => w.(branch := TrimPrefix(ref, HEADS_PREFIX))
    case Detached => w.(detached := true)
    case Bare => w.(bare := true)
    case Other(_) => w
  }

  function ApplyAll(w: Worktree, attrs: seq<Attr>): Worktree
    decreases attrs
  {
    if attrs == [] then w else ApplyAll(Apply(w, attrs[0]), attrs[1..])
  }

  function Meaning(s: Stanza): Worktree {
    ApplyAll(Worktree(s.path, "", "", false, false), s.attrs)
  }

  function Meanings(stanzas: seq<Stanza>): seq<Worktree> {
    if stanzas == [] then [] else [Meaning(stanzas[0])] + Meanings(stanzas[1..])
  }

  /** A value that survives being the tail of a line. */
  predicate CleanField(s: string) {
    '\n' !in s && (s == "" || s[|s| - 1] != '\r')
  }

  predicate CleanAttr(a: Attr) {
    match a
    case Head(sha) => CleanField(sha)
    case Ref(ref) => CleanField(ref)
    case Detached => true
    case Bare => true
    case Other(line) =>
      && '\n' !in line
      && !Blank(TrimRight(line, '\r'))
      && Cut(TrimRight(line, '\r'), ' ').before !in {"worktree", "HEAD", "branch", "detached", "bare"}
  }

  predicate CleanStanza(s: Stanza) {
    CleanField(s.path) && forall a :: a in s.attrs ==> CleanAttr(a)
  }

  // ---------------------------------------------------------------- round trip

  lemma {:induction false} ScanLinesAppend(s: Scan, a: seq<string>, b: seq<string>)
    ensures ScanLines(s, a + b) == ScanLines(ScanLines(s, a), b)
    decreases a
  {
    if a == [] {
      assert a + b == b;
    } else {
      assert (a + b)[0] == a[0] && (a + b)[1..] == a[1..] + b;
      ScanLinesAppend(ScanLine(s, a[0]), a[1..], b);
    }
  }

  /** A line `key value` is read back as that key and value. */
  lemma KeyedLine(s: Scan, key: string, val: string)
    requires ' ' !in key && key != "" && !IsSpace(key[0]) && CleanField(val)
    ensures ScanLine(s, KeyText(key, val)) == Keyed(s, key, val)
  {
    var line := key + " " + val;
    assert line[|line| - 1] == if val == "" then ' ' else val[|val| - 1];
    assert TrimRight(line, '\r') == line;
    assert line[0] == key[0];
    CutJoined(key, ' ', val);
  }

  /** A line that is a key alone is read as that key with an empty value. */
  lemma BareLine(s: Scan, key: string)
    requires ' ' !in key && key != "" && !IsSpace(key[0]) && key[|key| - 1] != '\r'
    ensures ScanLine(s, key) == Keyed(s, key, "")
  {
    assert TrimRight(key, '\r') == key;
  }

  lemma AttrRead(s: Scan, a: Attr)
    requires s.cur.Some? && CleanAttr(a)
    ensures ScanLine(s, AttrLine(a)) == Scan(s.out, Some(Apply(s.cur.value, a)))
  {
    match a
    case Head(sha) => HeadRead(s, sha);
    case Ref(ref) => RefRead(s, ref);
    case Detached => BareLine(s, "detached");
    case Bare => BareLine(s, "bare");
    case Other(_) =>
  }

  lemma HeadRead(s: Scan, sha: string)
    requires s.cur.Some? && CleanField(sha)
    ensures ScanLine(s, KeyText("HEAD", sha)) == Scan(s.out, Some(s.cur.value.(head := sha)))
  {
    KeyedLine(s, "HEAD", sha);
  }

  lemma RefRead(s: Scan, ref: string)
    requires s.cur.Some? && CleanField(ref)
    ensures ScanLine(s, KeyText("branch", ref)) == Scan(s.out, Some(s.cur.value.(branch := TrimPrefix(ref, HEADS_PREFIX))))
  {
    KeyedLine(s, "branch", ref);
  }

  lemma {:induction false} AttrsRead(s: Scan, attrs: seq<Attr>)
    requires s.cur.Some? && forall a :: a in attrs ==> CleanAttr(a)
    ensures ScanLines(s, AttrLines(attrs)) == Scan(s.out, Some(ApplyAll(s.cur.value, attrs)))
    decreases attrs
  {
    if attrs != [] {
      AttrRead(s, attrs[0]);
      var next := Scan(s.out, Some(Apply(s.cur.value, attrs[0])));
      AttrsRead(next, attrs[1..]);
      assert AttrLines(attrs)[1..] == AttrLines(attrs[1..]);
    }
  }

  lemma BlankRead(s: Scan)
    ensures ScanLines(s, [""]) == Flush(s)
  {
    assert TrimRight("", '\r') == "";
    assert ScanLines(s, [""]) == ScanLines(ScanLine(s, ""), []);
  }

  /** One printed stanza adds one row. */
  lemma StanzaRead(out: seq<Worktree>, s: Stanza)
    requires CleanStanza(s)
    ensures ScanLines(Scan(out, None), StanzaLines(s)) == Scan(out + [Meaning(s)], None)
  {
    var start := Scan(out, None);
    var head, attrs := [KeyText("worktree", s.path)], AttrLines(s.attrs);
    var started := Scan(out, Some(Worktree(s.path, "", "", false, false)));
    var filled := Scan(out, Some(Meaning(s)));
    WorktreeLine(out, s.path);
    AttrsRead(started, s.attrs);
    ReadOn(start, head, started, attrs, filled);
    BlankRead(filled);
    ReadOn(start, head + attrs, filled, [""], Scan(out + [Meaning(s)], None));
  }

  lemma WorktreeLine(out: seq<Worktree>, path: string)
    requires CleanField(path)
    ensures ScanLines(Scan(out, None), [KeyText("worktree", path)]) == Scan(out, Some(Worktree(path, "", "", false, false)))
  {
    var start, head := Scan(out, None), [KeyText("worktree", path)];
    KeyedLine(start, "worktree", path);
    assert ScanLines(start, head) == ScanLines(ScanLine(start, head[0]), []);
  }

  /** Reading more lines from where the first ones left off. */
  lemma ReadOn(a: Scan, first: seq<string>, b: Scan, more: seq<string>, c: Scan)
    requires ScanLines(a, first) == b && ScanLines(b, more) == c
    ensures ScanLines(a, first + more) == c
  {
    ScanLinesAppend(a, first, more);
  }

  lemma DocumentCons(out: seq<Worktree>, s: Stanza, doc: seq<string>, more: seq<Worktree>)
    requires CleanStanza(s)
    requires ScanLines(Scan(out + [Meaning(s)], None), doc) == Scan(out + [Meaning(s)] + more, None)
    ensures ScanLines(Scan(out, None), StanzaLines(s) + doc) == Scan(out + ([Meaning(s)] + more), None)
  {
    StanzaRead(out, s);
    Regroup(out, [Meaning(s)], more);
    ReadOn(Scan(out, None), StanzaLines(s), Scan(out + [Meaning(s)], None), doc, Scan(out + ([Meaning(s)] + more), None));
  }

  lemma {:induction false} DocumentRead(out: seq<Worktree>, stanzas: seq<Stanza>)
    requires forall s :: s in stanzas ==> CleanStanza(s)
    ensures ScanLines(Scan(out, None), Document(stanzas)) == Scan(out + Meanings(stanzas), None)
    decreases stanzas
  {
    if stanzas == [] {
      BlankRead(Scan(out, None));
      assert out + [] == out;
    } else {
      assert stanzas[0] in stanzas;
      DocumentRead(out + [Meaning(stanzas[0])], stanzas[1..]);
      DocumentCons(out, stanzas[0], Document(stanzas[1..]), Meanings(stanzas[1..]));
    }
  }

  lemma {:induction false} DocumentLines(stanzas: seq<Stanza>)
    requires forall s :: s in stanzas ==> CleanStanza(s)
    ensures forall l :: l in Document(stanzas) ==> '\n' !in l
  {
    if stanzas != [] {
      DocumentLines(stanzas[1..]);
      assert CleanStanza(stanzas[0]);
      AttrLinesClean(stanzas[0].attrs);
    }
  }

  lemma {:induction false} AttrLinesClean(attrs: seq<Attr>)
    requires forall a :: a in attrs ==> CleanAttr(a)
    ensures forall l :: l in AttrLines(attrs) ==> '\n' !in l
  {
    if attrs != [] {
      assert CleanAttr(attrs[0]);
      AttrLinesClean(attrs[1..]);
    }
  }

  /** Printed stanzas, with attributes in any order and unknown lines between them, parse to what they say. */
  lemma PorcelainRoundTrip(stanzas: seq<Stanza>)
    requires forall s :: s in stanzas ==> CleanStanza(s)
    ensures ParseWorktreeList(Print(stanzas)) == Meanings(stanzas)
  {
    DocumentLines(stanzas);
    SplitOfJoin(Document(stanzas), '\n');
    DocumentRead([], stanzas);
    assert [] + Meanings(stanzas) == Meanings(stanzas);
  }

  // ---------------------------------------------------------------- exactly when a list survives

  predicate CleanTree(w: Worktree) {
    CleanField(w.path) && CleanField(w.branch) && CleanField(w.head)
  }

  /** How git itself prints a worktree. */
  function Canonical(w: Worktree): Stanza {
    Stanza(w.path,
           [Head(w.head)]
           + (if w.branch == "" then [] else [Ref(HEADS_PREFIX + w.branch)])
           + (if w.detached then [Detached] else [])
           + (if w.bare then [Bare] else []))
  }

  function CanonicalAll(ws: seq<Worktree>): seq<Stanza> {
    if ws == [] then [] else [Canonical(ws[0])] + CanonicalAll(ws[1..])
  }

  lemma CanonicalMeaning(w: Worktree)
    ensures Meaning(Canonical(w)) == w
  {
    var w0 := Worktree(w.path, "", "", false, false);
    var a := [Head(w.head)];
    var b := if w.branch == "" then [] else [Ref(HEADS_PREFIX + w.branch)];
    var c := if w.detached then [Detached] else [];
    var d := if w.bare then [Bare] else [];
    ApplyAppend(w0, a, b);
    ApplyAppend(w0, a + b, c);
    ApplyAppend(w0, a + b + c, d);
    assert TrimPrefix(HEADS_PREFIX + w.branch, HEADS_PREFIX) == w.branch;
  }

  lemma {:induction false} ApplyAppend(w: Worktree, a: seq<Attr>, b: seq<Attr>)
    ensures ApplyAll(w, a + b) == ApplyAll(ApplyAll(w, a), b)
    decreases a
  {
    if a == [] {
      assert a + b == b;
    } else {
      assert (a + b)[0] == a[0] && (a + b)[1..] == a[1..] + b;
      ApplyAppend(Apply(w, a[0]), a[1..], b);
    }
  }

  lemma CanonicalClean(w: Worktree)
    requires CleanTree(w)
    ensures CleanStanza(Canonical(w))
  {
    var ref := HEADS_PREFIX + w.branch;
    assert w.branch != "" ==> ref[|ref| - 1] == w.branch[|w.branch| - 1];
    assert '\n' !in HEADS_PREFIX;
    forall a | a in Canonical(w).attrs ensures CleanAttr(a) {
      assert a in [Head(w.head)] || (w.branch != "" && a == Ref(ref)) || a == Detached || a == Bare;
    }
  }

  lemma {:induction false} CanonicalMeanings(ws: seq<Worktree>)
    ensures Meanings(CanonicalAll(ws)) == ws
  {
    if ws != [] {
      CanonicalMeaning(ws[0]);
      CanonicalMeanings(ws[1..]);
      assert CanonicalAll(ws)[1..] == CanonicalAll(ws[1..]);
    }
  }

  lemma {:induction false} CanonicalAllClean(ws: seq<Worktree>)
    requires forall w :: w in ws ==> CleanTree(w)
    ensures forall s :: s in CanonicalAll(ws) ==> CleanStanza(s)
  {
    if ws != [] {
      CanonicalClean(ws[0]);
      CanonicalAllClean(ws[1..]);
    }
  }

  predicate CleanScan(s: Scan) {
    (forall w :: w in s.out ==> CleanTree(w)) && (s.cur.Some? ==> CleanTree(s.cur.value))
  }

  /** Both halves of a cut line are clean after the cut. */
  lemma CutClean(line: string)
    requires CleanField(line)
    ensures CleanField(Cut(line, ' ').after)
  {
    var kv := Cut(line, ' ');
    if kv.found {
      assert kv.after == line[|kv.before| + 1..];
    }
  }

  lemma TrimPrefixClean(s: string, prefix: string)
    requires CleanField(s)
    ensures CleanField(TrimPrefix(s, prefix))
  {}

  lemma KeyedClean(s: Scan, key: string, val: string)
    requires CleanScan(s) && CleanField(val)
    ensures CleanScan(Keyed(s, key, val))
  {
    TrimPrefixClean(val, HEADS_PREFIX);
    if s.cur.Some? {
      assert CleanTree(Field(s.cur.value, key, val));
    }
  }

  lemma ScanLineClean(s: Scan, raw: string)
    requires CleanScan(s) && '\n' !in raw
    ensures CleanScan(ScanLine(s, raw))
  {
    var line := TrimRight(raw, '\r');
    assert line == raw[..|line|];
    CutClean(line);
    var kv := Cut(line, ' ');
    KeyedClean(s, kv.before, kv.after);
  }

  lemma {:induction false} ScanLinesClean(s: Scan, lines: seq<string>)
    requires CleanScan(s) && forall l :: l in lines ==> '\n' !in l
    ensures CleanScan(ScanLines(s, lines))
    decreases lines
  {
    if lines != [] {
      ScanLineClean(s, lines[0]);
      ScanLinesClean(ScanLine(s, lines[0]), lines[1..]);
    }
  }

  /** Whatever the text, no parsed field holds a newline or ends in a carriage return. */
  lemma ParsedFieldsClean(porcelain: string)
    ensures forall w :: w in ParseWorktreeList(porcelain) ==> CleanTree(w)
  {
    ScanLinesClean(Scan([], None), Split(porcelain, '\n'));
  }

  /** A list of worktrees survives git's printing and this parser exactly when every field is line-safe. */
  lemma PrintedListSurvives(ws: seq<Worktree>)
    ensures ParseWorktreeList(Print(CanonicalAll(ws))) == ws <==> forall w :: w in ws ==> CleanTree(w)
  {
    CanonicalMeanings(ws);
    ParsedFieldsClean(Print(CanonicalAll(ws)));
    if forall w :: w in ws ==> CleanTree(w) {
      CanonicalAllClean(ws);
      PorcelainRoundTrip(CanonicalAll(ws));
    }
  }

  // ---------------------------------------------------------------- ahead and behind counts

  /** Both counts are absent when the comparison is unknown, which is not the same as zero. */
  datatype Counts = Counts(ahead: Option<int>, behind: Option<int>)

  const NO_COUNTS := Counts(None, None)

  /** strings.Fields. */
  function Fields(s: string): seq<string>
    decreases |s|
  {
    if s == "" then []
    else if IsSpace(s[0]) then Fields(s[1..])
    else var n := WordLength(s); [s[..n]] + Fields(s[n..])
  }

  function WordLength(s: string): (n: nat)
    ensures n <= |s|
    ensures s != "" && !IsSpace(s[0]) ==> n > 0
    ensures forall i :: 0 <= i < n ==> !IsSpace(s[i])
    ensures n < |s| ==> IsSpace(s[n])
  {
    if s == "" || IsSpace(s[0]) then 0 else 1 + WordLength(s[1..])
  }

  function ParseAheadBehind(out: string): Counts {
    var fields := Fields(out);
    if |fields| != 2 then NO_COUNTS
    else
      var a, b := Atoi(fields[0]), Atoi(fields[1]);
      if a.None? || b.None? then NO_COUNTS else Counts(a, b)
  }

  predicate Word(s: string) {
    s != "" && forall i :: 0 <= i < |s| ==> !IsSpace(s[i])
  }

  lemma FirstField(word: string, sep: char, rest: string)
    requires Word(word) && IsSpace(sep)
    ensures Fields(word + [sep] + rest) == [word] + Fields(rest)
  {
    var s := word + [sep] + rest;
    var n := WordLength(s);
    assert s[0] == word[0];
    assert s[|word|] == sep;
    assert forall i :: 0 <= i < |word| ==> s[i] == word[i];
    assert n == |word|;
    assert s[..n] == word && s[n..] == [sep] + rest;
    assert ([sep] + rest)[1..] == rest;
  }

  lemma TwoFields(a: string, b: string)
    requires Word(a) && Word(b)
    ensures Fields(a + "\t" + b + "\n") == [a, b]
  {
    FirstField(b, '\n', "");
    assert b + ['\n'] + "" == b + "\n";
    FirstField(a, '\t', b + "\n");
    assert a + ['\t'] + (b + "\n") == a + "\t" + b + "\n";
  }

  /** The two counts git prints are read back, left as ahead and right as behind. */
  lemma AheadBehindRoundTrip(ahead: int, behind: int)
    requires MIN_INT64 <= ahead <= MAX_INT64 && MIN_INT64 <= behind <= MAX_INT64
    ensures ParseAheadBehind(Itoa(ahead) + "\t" + Itoa(behind) + "\n") == Counts(Some(ahead), Some(behind))
  {
    var a, b := Itoa(ahead), Itoa(behind);
    TwoFields(a, b);
    AtoiOfItoa(ahead);
    AtoiOfItoa(behind);
  }
}
