/**
 * plugins/tmux/keys.go:45-111 and plugins/tmux/snapshot.go:96-154: pane keys and list-panes output, each
 * with the text it is read back from.
 */
module TmuxText {
  import opened Options
  import opened Text
  import opened Tmux

  // ---------------------------------------------------------------- pane keys

  datatype PaneId = PaneId(session: string, window: int, pane: int, host: string)

  /** The scope of a pane key: session, window and pane. */
  function ParseScope(scope: string, host: string): Option<PaneId> {
    var c := Cut(scope, ':');
    if !c.found || c.before == "" then None
    else
      var d := Cut(c.after, '.');
      if !d.found || ':' in d.after || '.' in d.after || Atoi(d.before).None? || Atoi(d.after).None? then None
      else Some(PaneId(c.before, Atoi(d.before).value, Atoi(d.after).value, host))
  }

  /** parsePaneKey. */
  function ParsePaneKey(key: string): Option<PaneId> {
    var at := LastIndexOf(key, '@');
    if at < 0 || at == |key| - 1 then None
    else
      var c := Cut(key[..at], ':');
      if !c.found || c.before != "pane" then None else ParseScope(c.after, key[at + 1..])
  }

  predicate InRange(n: int) { MIN_INT64 <= n <= MAX_INT64 }

  function Scope(id: PaneId): string { id.session + ":" + (Itoa(id.window) + "." + Itoa(id.pane)) }

  lemma ScopeParses(id: PaneId)
    requires id.session != "" && ':' !in id.session && InRange(id.window) && InRange(id.pane)
    ensures ParseScope(Scope(id), id.host) == Some(id)
  {
    CutJoined(id.session, ':', Itoa(id.window) + "." + Itoa(id.pane));
    IndicesParse(id.window, id.pane);
  }

  lemma IndicesParse(window: int, pane: int)
    requires InRange(window) && InRange(pane)
    ensures var d := Cut(Itoa(window) + "." + Itoa(pane), '.');
            d.found && ':' !in d.after && '.' !in d.after && Atoi(d.before) == Some(window) && Atoi(d.after) == Some(pane)
  {
    CutJoined(Itoa(window), '.', Itoa(pane));
    AtoiOfItoa(window);
    AtoiOfItoa(pane);
  }

  lemma PaneKeyText(id: PaneId)
    ensures PaneKey(id.session, id.window, id.pane, id.host) == ("pane" + ":" + Scope(id)) + "@" + id.host
  {}

  lemma ParsedParts(key: string)
    requires ParsePaneKey(key).Some?
    ensures var id := ParsePaneKey(key).value; id.host != "" && '@' !in id.host && id.session != "" && ':' !in id.session
  {}

  /**
   * A pane key reads back as its parts if and only if the session is non-empty without ':' and the host
   * non-empty without '@'.
   */
  lemma PaneKeyRoundTrip(id: PaneId)
    requires InRange(id.window) && InRange(id.pane)
    ensures ParsePaneKey(PaneKey(id.session, id.window, id.pane, id.host)) == Some(id) <==>
            id.session != "" && ':' !in id.session && id.host != "" && '@' !in id.host
  {
    var key := PaneKey(id.session, id.window, id.pane, id.host);
    if ParsePaneKey(key) == Some(id) {
      ParsedParts(key);
    }
    if id.session != "" && ':' !in id.session && id.host != "" && '@' !in id.host {
      CleanKeyParses(id);
    }
  }

  lemma CleanKeyParses(id: PaneId)
    requires InRange(id.window) && InRange(id.pane)
    requires id.session != "" && ':' !in id.session && id.host != "" && '@' !in id.host
    ensures ParsePaneKey(PaneKey(id.session, id.window, id.pane, id.host)) == Some(id)
  {
    PaneKeyText(id);
    LastJoined("pane" + ":" + Scope(id), '@', id.host);
    CutJoined("pane", ':', Scope(id));
    ScopeParses(id);
  }

  // ---------------------------------------------------------------- list-panes output

  function Flag(b: bool): string { if b then "1" else "0" }

  function FieldsOf(p: Pane): seq<string> { [p.session, Itoa(p.window), Itoa(p.pane), Itoa(p.pid), p.cmd, p.path, Flag(p.active)] }

  /** A line of the format the poll asks for. */
  function PrintPane(p: Pane): string { Join(FieldsOf(p), '\t') }

  predicate Plain(s: string) { '\t' !in s && '\n' !in s }

  predicate Printable(p: Pane, shells: seq<string>) {
    Plain(p.session) && Plain(p.cmd) && Plain(p.path) && InRange(p.window) && InRange(p.pane) && InRange(p.pid) && p.free == (p.cmd in shells)
  }

  lemma FieldsPlain(p: Pane, shells: seq<string>)
    requires Printable(p, shells)
    ensures forall f :: f in FieldsOf(p) ==> Plain(f)
  {}

  lemma NumberOfItoa(n: int)
    requires InRange(n)
    ensures Number(Itoa(n)) == n
  {
    AtoiOfItoa(n);
  }

  /** A printed pane line reads back as that pane. */
  lemma LineRoundTrip(p: Pane, host: string, shells: seq<string>)
    requires Printable(p, shells)
    ensures ParseLine(host, PrintPane(p), shells) == Some(Listed(PaneKey(p.session, p.window, p.pane, host), p))
  {
    FieldsPlain(p, shells);
    SplitOfJoin(FieldsOf(p), '\t');
    AtoiOfItoa(p.window);
    AtoiOfItoa(p.pane);
    NumberOfItoa(p.pid);
  }

  lemma {:induction false} JoinKeeps(parts: seq<string>, c: char, d: char)
    requires c != d && forall p :: p in parts ==> d !in p
    ensures d !in Join(parts, c)
  {
    if parts != [] {
      assert d !in parts[0];
      if |parts| > 1 {
        assert forall p :: p in parts[1..] ==> p in parts;
        JoinKeeps(parts[1..], c, d);
      }
    }
  }

  lemma {:induction false} JoinContains(parts: seq<string>, c: char, i: nat, x: char)
    requires i < |parts| && x in parts[i]
    ensures x in Join(parts, c)
  {
    if i > 0 {
      JoinContains(parts[1..], c, i - 1, x);
      assert x in Join(parts[1..], c);
    }
  }

  lemma PrintedLine(p: Pane, shells: seq<string>)
    requires Printable(p, shells)
    ensures '\n' !in PrintPane(p) && !Blank(PrintPane(p))
  {
    FieldsPlain(p, shells);
    JoinKeeps(FieldsOf(p), '\t', '\n');
    var x := Itoa(p.window)[0];
    assert x in FieldsOf(p)[1];
    JoinContains(FieldsOf(p), '\t', 1, x);
    var s := PrintPane(p);
    var i :| 0 <= i < |s| && s[i] == x;
    assert !IsSpace(s[i]);
  }

  function PrintAll(ps: seq<Pane>): seq<string> { seq(|ps|, i requires 0 <= i < |ps| => PrintPane(ps[i])) }

  function Rows(ps: seq<Pane>, host: string): seq<Listed> {
    seq(|ps|, i requires 0 <= i < |ps| => Listed(PaneKey(ps[i].session, ps[i].window, ps[i].pane, host), ps[i]))
  }

  ghost predicate AllPrintable(ps: seq<Pane>, shells: seq<string>) { forall i :: 0 <= i < |ps| ==> Printable(ps[i], shells) }

  lemma LineAdds(host: string, lines: seq<string>, line: string, shells: seq<string>)
    requires !Blank(line) && ParseLine(host, line, shells).Some?
    ensures RowsOf(lines + [line], PaneParser(host, shells)) ==
            RowsOf(lines, PaneParser(host, shells)) + [ParseLine(host, line, shells).value]
  {
    assert (lines + [line])[..|lines|] == lines;
  }

  lemma OneMore(ps: seq<Pane>, host: string)
    requires ps != []
    ensures var n := |ps| - 1;
            && PrintAll(ps) == PrintAll(ps[..n]) + [PrintPane(ps[n])]
            && Rows(ps, host) == Rows(ps[..n], host) + [Listed(PaneKey(ps[n].session, ps[n].window, ps[n].pane, host), ps[n])]
  {}

  lemma {:induction false} LinesRoundTrip(ps: seq<Pane>, host: string, shells: seq<string>)
    requires AllPrintable(ps, shells)
    ensures RowsOf(PrintAll(ps), PaneParser(host, shells)) == Rows(ps, host)
  {
    if ps != [] {
      var init, p := ps[..|ps| - 1], ps[|ps| - 1];
      OneMore(ps, host);
      LinesRoundTrip(init, host, shells);
      LineRoundTrip(p, host, shells);
      PrintedLine(p, shells);
      LineAdds(host, PrintAll(init), PrintPane(p), shells);
    }
  }

  lemma BlankAdds(host: string, lines: seq<string>, shells: seq<string>)
    ensures RowsOf(lines + [""], PaneParser(host, shells)) == RowsOf(lines, PaneParser(host, shells))
  {
    assert (lines + [""])[..|lines|] == lines;
    assert RowsOf(lines, PaneParser(host, shells)) + [] == RowsOf(lines, PaneParser(host, shells));
  }

  /** A whole listing, one line per pane and a final newline, reads back as its panes in order. */
  lemma ListingRoundTrip(ps: seq<Pane>, host: string, shells: seq<string>)
    requires AllPrintable(ps, shells)
    ensures RowsOf(Split(Join(PrintAll(ps) + [""], '\n'), '\n'), PaneParser(host, shells)) == Rows(ps, host)
  {
    var lines := PrintAll(ps) + [""];
    forall l | l in lines ensures '\n' !in l {
      if l != "" {
        var i :| 0 <= i < |PrintAll(ps)| && PrintAll(ps)[i] == l;
        PrintedLine(ps[i], shells);
      }
    }
    SplitOfJoin(lines, '\n');
    BlankAdds(host, PrintAll(ps), shells);
    LinesRoundTrip(ps, host, shells);
  }
}
