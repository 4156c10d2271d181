/**
 * The tmux rows and lines field by field (plugins/tmux/snapshot.go:14-153, plugins/tmux/store.go:70-117 and
 * plugins/tmux/keys.go:43-49): what every poll and outage leaves of every row, and what every line is read as.
 */
module TmuxFields {
  import opened Options
  import opened Delivery
  import opened Text
  import opened Tmux
  import opened TmuxText
  import opened TmuxRun
  import opened TmuxView
  import opened TmuxDelivery

  // ---------------------------------------------------------------- every row

  /** The last line of a listing for a key. */
  function LastLine(list: seq<Listed>, k: string): Option<Pane> {
    if list == [] then None
    else if list[|list| - 1].key == k then Some(list[|list| - 1].pane)
    else LastLine(list[..|list| - 1], k)
  }

  lemma {:induction false} LastLineListed(list: seq<Listed>, k: string)
    ensures LastLine(list, k).Some? <==> k in Listing(list)
    ensures k in Listing(list) ==> LastLine(list, k) == Some(Listing(list)[k])
  {
    if list != [] {
      LastLineListed(list[..|list| - 1], k);
    }
  }

  function PaneAt(db: Panes, k: string): Option<Tmux.Row> { if k in db then Some(db[k]) else None }

  /**
   * What a poll that nothing interrupts leaves of every pane: a listed one is live with its last line's fields, one
   * that was live and is not listed is marked with the poll's time, and any other row is as it was.
   */
  lemma PollRows(db: Panes, list: seq<Listed>, now: int, k: string)
    ensures var line := LastLine(list, k);
            PaneAt(Tmux.Reconcile(db, list, now), k) ==
              if line.Some? then Some(Row(line.value, None))
              else if k in db && db[k].stale == None then Some(Row(db[k].pane, Some(now)))
              else PaneAt(db, k)
  {
    LastLineListed(list, k);
    UpsertAllExact(db, list);
    ListingKeys(list);
  }

  /** An outage marks every live pane and session with its time, and changes nothing else of any row. */
  lemma OutageRows(db: Panes, sessions: Sessions, now: int, k: string)
    ensures k in MarkAllStale(db, now) <==> k in db
    ensures k in db ==> MarkAllStale(db, now)[k] == Row(db[k].pane, if db[k].stale == None then Some(now) else db[k].stale)
    ensures k in MarkSessionsStale(sessions, now) <==> k in sessions
    ensures k in sessions ==> MarkSessionsStale(sessions, now)[k]
                              == SessionRow(sessions[k].session, if sessions[k].stale == None then Some(now) else sessions[k].stale)
  {}

  function LastSession(list: seq<ListedSession>, k: string): Option<Session> {
    if list == [] then None
    else if list[|list| - 1].key == k then Some(list[|list| - 1].session)
    else LastSession(list[..|list| - 1], k)
  }

  function SessionAt(db: Sessions, k: string): Option<SessionRow> { if k in db then Some(db[k]) else None }

  /** A listed session is live as last listed; a poll marks no session, listed or not. */
  lemma {:induction false} SessionRows(db: Sessions, list: seq<ListedSession>, k: string)
    ensures SessionAt(UpsertSessions(db, list), k)
         == if LastSession(list, k).Some? then Some(SessionRow(LastSession(list, k).value, None)) else SessionAt(db, k)
    decreases list
  {
    if list != [] {
      SessionRows(db, list[..|list| - 1], k);
    }
  }

  /** The time a step marks panes with. */
  function MarkTime(s: State, step: TmuxRun.Step): int {
    match step
    case Close(_) => if s.phase.Closing? then s.phase.now else 0
    case FailedPoll(now) => now
    case ServerDown(now) => now
    case _ => 0
  }

  /**
   * Every step, in any interleaving, row by row: a store leaves the listed fields and no mark; a closing marks its own
   * pane with the poll's time and an outage every live one with its own; nothing else changes a row.
   */
  lemma StepRows(s: State, step: TmuxRun.Step, k: string)
    ensures var marked := k in s.db && s.db[k].stale == None && (Shuts(s, step, k) || IsOutage(s, step));
            PaneAt(TmuxRun.Next(s, step).db, k) ==
              if Stores(s, step, k) then Some(Row(s.phase.list[s.phase.i].pane, None))
              else if marked then Some(Row(s.db[k].pane, Some(MarkTime(s, step))))
              else PaneAt(s.db, k)
  {}

  // ---------------------------------------------------------------- what is told of a pane

  /** A pane is announced when it is new, or its free flag, command or path changed; nothing else of it counts. */
  lemma AnnouncesExactly(prev: map<string, Pane>, l: Listed)
    ensures Announces(prev, l) <==>
            !(l.key in prev && prev[l.key].free == l.pane.free && prev[l.key].cmd == l.pane.cmd && prev[l.key].path == l.pane.path)
  {}

  /** A poll announces, in listing order, the lines that are new or changed against what it read as live. */
  lemma UpdatesMore(prev: map<string, Pane>, list: seq<Listed>, l: Listed)
    ensures Updates(prev, []) == []
    ensures var same := l.key in prev && prev[l.key].free == l.pane.free && prev[l.key].cmd == l.pane.cmd && prev[l.key].path == l.pane.path;
            Updates(prev, list + [l]) == if same then Updates(prev, list) else Updates(prev, list) + [l]
  {
    assert (list + [l])[..|list|] == list;
    assert Updates(prev, list) + [] == Updates(prev, list);
  }

  /** Told of a live pane are its free flag, its command and its path, exactly when its last emit arrived or said nothing new. */
  lemma ConsumerFields(steps: seq<TmuxRun.Step>, sent: nat -> bool, k: string)
    requires Proper(steps) && k in Live(TmuxRun.Run(steps).db)
    ensures var told, p := Told(steps, sent, k), Live(TmuxRun.Run(steps).db)[k];
            (told.Some? && told.value.free == p.free && told.value.cmd == p.cmd && told.value.path == p.path)
            <==> !Missed(Log(steps), sent, k)
  {
    TmuxView.ViewExactly(steps, k);
    ConsumerExactly(steps, sent, k);
  }

  // ---------------------------------------------------------------- every line

  lemma JoinTab(first: string, rest: seq<string>)
    requires rest != []
    ensures Join([first] + rest, '\t') == first + "\t" + Join(rest, '\t')
  {
    assert ([first] + rest)[1..] == rest;
  }

  /**
   * A line of at least seven fields with two good indices is a pane under its host's key; a bad pid reads as
   * zero, and the pane is free exactly when its command is an idle shell.
   */
  lemma LineReads(host: string, f: seq<string>, shells: seq<string>, w: int, p: int)
    requires |f| >= 7 && (forall x :: x in f ==> '\t' !in x) && Atoi(f[1]) == Some(w) && Atoi(f[2]) == Some(p)
    ensures var r := ParseLine(host, Join(f, '\t'), shells);
            && r.Some?
            && r.value.key == "pane:" + f[0] + ":" + Itoa(w) + "." + Itoa(p) + "@" + host
            && r.value.pane.session == f[0] && r.value.pane.window == w && r.value.pane.pane == p
            && (Atoi(f[3]).Some? ==> r.value.pane.pid == Atoi(f[3]).value)
            && (f[3] == "" || (exists c :: c in f[3] && c != '-' && c != '+' && !('0' <= c <= '9')) ==> r.value.pane.pid == 0)
            && r.value.pane.cmd == f[4] && r.value.pane.path == f[5]
            && (r.value.pane.active <==> f[6] == "1")
            && (r.value.pane.free <==> f[4] in shells)
  {
    LineIs(host, f, shells, w, p);
    PaneKeyIs(f[0], w, p, host);
    PidReads(f[3]);
  }

  lemma LineIs(host: string, f: seq<string>, shells: seq<string>, w: int, p: int)
    requires |f| >= 7 && (forall x :: x in f ==> '\t' !in x) && Atoi(f[1]) == Some(w) && Atoi(f[2]) == Some(p)
    ensures ParseLine(host, Join(f, '\t'), shells)
         == Some(Listed(PaneKey(f[0], w, p, host), Pane(f[0], w, p, Number(f[3]), f[4], f[5], f[6] == "1", f[4] in shells)))
  {
    SplitOfJoin(f, '\t');
  }

  lemma PidReads(s: string)
    ensures Atoi(s).Some? ==> Number(s) == Atoi(s).value
    ensures s == "" || (exists c :: c in s && c != '-' && c != '+' && !('0' <= c <= '9')) ==> Number(s) == 0
  {
    BadNumber(s);
  }

  lemma PaneKeyIs(session: string, w: int, p: int, host: string)
    ensures PaneKey(session, w, p, host) == "pane:" + session + ":" + Itoa(w) + "." + Itoa(p) + "@" + host
  {
    var a, b := Itoa(w), Itoa(p);
    assert session + ":" + (a + "." + b) == session + ":" + a + "." + b;
  }

  /** A pid too large for the machine reads as the nearest bound. */
  lemma NumberExactly(n: int)
    ensures Number(Itoa(n)) == if n < -9223372036854775808 then -9223372036854775808
                               else if n > 9223372036854775807 then 9223372036854775807 else n
  {
    AtoiExactly(n);
    if n < 0 {
      assert Itoa(n)[1..] == Digits(-n);
    } else {
      assert IsDigit(Itoa(n)[0]);
    }
  }

  lemma BadNumber(s: string)
    ensures s == "" || (exists c :: c in s && c != '-' && c != '+' && !('0' <= c <= '9')) ==> Number(s) == 0 && Atoi(s).None?
  {
    if c :| c in s && c != '-' && c != '+' && !('0' <= c <= '9') {
      var i :| 0 <= i < |s| && s[i] == c;
      var body := if s[0] == '-' || s[0] == '+' then s[1..] else s;
      assert body == s || (i > 0 && body[i - 1] == c);
      assert body == s ==> body[i] == c;
      assert !AllDigits(body);
    }
  }

  /** A line of fewer fields, or with a bad index, is no pane. */
  lemma LineSkipped(host: string, f: seq<string>, shells: seq<string>)
    requires f != [] && (forall x :: x in f ==> '\t' !in x)
    ensures ParseLine(host, Join(f, '\t'), shells).None? <==> |f| < 7 || Atoi(f[1]).None? || Atoi(f[2]).None?
  {
    SplitOfJoin(f, '\t');
  }

  /** A session line: its name and its path, more fields ignored; its branch is that of its path. */
  lemma SessionReads(host: string, f: seq<string>, branchOf: string -> string)
    requires f != [] && (forall x :: x in f ==> '\t' !in x)
    ensures var r := ParseSessionLine(host, Join(f, '\t'), branchOf);
            && (|f| < 2 ==> r == None)
            && (|f| >= 2 ==> r == Some(ListedSession("session:" + f[0] + "@" + host, Session(f[0], f[1], branchOf(f[1])))))
  {
    SplitOfJoin(f, '\t');
  }

  /** A line of list-sessions. */
  function SessionText(name: string, path: string): string { name + "\t" + path }

  function SessionTexts(ss: seq<(string, string)>): seq<string> {
    if ss == [] then [] else SessionTexts(ss[..|ss| - 1]) + [SessionText(ss[|ss| - 1].0, ss[|ss| - 1].1)]
  }

  function SessionsOf(host: string, ss: seq<(string, string)>, branchOf: string -> string): seq<ListedSession> {
    if ss == [] then []
    else
      var (name, path) := ss[|ss| - 1];
      SessionsOf(host, ss[..|ss| - 1], branchOf) + [ListedSession("session:" + name + "@" + host, Session(name, path, branchOf(path)))]
  }

  ghost predicate PlainSessions(ss: seq<(string, string)>) {
    forall i :: 0 <= i < |ss| ==> Plain(ss[i].0) && Plain(ss[i].1) && !Blank(SessionText(ss[i].0, ss[i].1))
  }

  lemma SessionLine(host: string, name: string, path: string, branchOf: string -> string)
    requires Plain(name) && Plain(path)
    ensures ParseSessionLine(host, SessionText(name, path), branchOf)
         == Some(ListedSession("session:" + name + "@" + host, Session(name, path, branchOf(path))))
    ensures '\n' !in SessionText(name, path)
  {
    var f := [name, path];
    assert Join(f, '\t') == name + "\t" + path by {
      JoinTab(name, [path]);
      assert f == [name] + [path] && Join([path], '\t') == path;
    }
    SessionReads(host, f, branchOf);
  }

  lemma {:induction false} SessionLines(host: string, ss: seq<(string, string)>, branchOf: string -> string)
    requires PlainSessions(ss)
    ensures RowsOf(SessionTexts(ss), SessionParser(host, branchOf)) == SessionsOf(host, ss, branchOf)
    ensures forall l :: l in SessionTexts(ss) ==> '\n' !in l
    decreases ss
  {
    if ss != [] {
      var n := |ss| - 1;
      SessionLines(host, ss[..n], branchOf);
      SessionLine(host, ss[n].0, ss[n].1, branchOf);
      var init, last := SessionTexts(ss[..n]), SessionText(ss[n].0, ss[n].1);
      assert (init + [last])[..|init|] == init;
      assert !Blank(last);
    }
  }

  /** A whole list-sessions output reads back as its sessions, in order. */
  lemma SessionListingReads(host: string, ss: seq<(string, string)>, branchOf: string -> string)
    requires PlainSessions(ss)
    ensures RowsOf(Split(Join(SessionTexts(ss) + [""], '\n'), '\n'), SessionParser(host, branchOf)) == SessionsOf(host, ss, branchOf)
  {
    SessionLines(host, ss, branchOf);
    SplitOfJoin(SessionTexts(ss) + [""], '\n');
    BlankEnd(SessionTexts(ss), SessionParser(host, branchOf));
  }

  lemma BlankEnd<T>(lines: seq<string>, parse: string -> Option<T>)
    ensures RowsOf(lines + [""], parse) == RowsOf(lines, parse)
  {
    assert (lines + [""])[..|lines|] == lines;
    assert RowsOf(lines, parse) + [] == RowsOf(lines, parse);
  }
}
