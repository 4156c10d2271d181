/**
 * plugins/tmux/snapshot.go:27-153 and plugins/tmux/store.go:70-155: what one poll writes, statement by
 * statement, and the text it reads.
 */
module Tmux {
  import opened Options
  import opened RowLists
  import opened Text

  datatype Pane = Pane(session: string, window: int, pane: int, pid: int, cmd: string, path: string, active: bool, free: bool)

  /** A row of tmux_panes; a pane is live while it has no stale mark. */
  datatype Row = Row(pane: Pane, stale: Option<int>)

  type Panes = map<string, Row>

  /** One line of a listing, under the key it is stored by. */
  datatype Listed = Listed(key: string, pane: Pane)

  function PaneKey(session: string, window: int, pane: int, host: string): string {
    "pane:" + (session + ":" + (Itoa(window) + "." + Itoa(pane)) + "@" + host)
  }

  datatype Session = Session(name: string, worktree: string, branch: string)

  datatype SessionRow = SessionRow(session: Session, stale: Option<int>)

  type Sessions = map<string, SessionRow>

  datatype ListedSession = ListedSession(key: string, session: Session)

  function SessionKey(name: string, host: string): string { "session:" + name + "@" + host }

  // ---------------------------------------------------------------- one poll

  function Upsert(db: Panes, l: Listed): Panes { db[l.key := Row(l.pane, None)] }

  function UpsertAll(db: Panes, list: seq<Listed>): Panes {
    if list == [] then db else Upsert(UpsertAll(db, list[..|list| - 1]), list[|list| - 1])
  }

  function Keys(list: seq<Listed>): set<string> { set i | 0 <= i < |list| :: list[i].key }

  /** livePaneRows. */
  function Live(db: Panes): map<string, Pane> { map k | k in db && db[k].stale.None? :: db[k].pane }

  function Stamp(db: Panes, keys: set<string>, now: int): Panes {
    map k | k in db :: if k in keys && db[k].stale.None? then db[k].(stale := Some(now)) else db[k]
  }

  function MarkAllStale(db: Panes, now: int): Panes { Stamp(db, db.Keys, now) }

  function UpsertSessions(db: Sessions, list: seq<ListedSession>): Sessions {
    if list == [] then db
    else UpsertSessions(db, list[..|list| - 1])[list[|list| - 1].key := SessionRow(list[|list| - 1].session, None)]
  }

  function MarkSessionsStale(db: Sessions, now: int): Sessions {
    map k | k in db :: if db[k].stale.None? then db[k].(stale := Some(now)) else db[k]
  }

  /** The fields whose change is worth an event. */
  datatype Visible = Visible(free: bool, cmd: string, path: string)

  function See(p: Pane): Visible { Visible(p.free, p.cmd, p.path) }

  predicate Announces(prev: map<string, Pane>, l: Listed) { l.key in prev ==> See(prev[l.key]) != See(l.pane) }

  /** The tmux.pane.updated events of a poll, in listing order. */
  function Updates(prev: map<string, Pane>, list: seq<Listed>): seq<Listed> {
    if list == [] then []
    else
      var l := list[|list| - 1];
      Updates(prev, list[..|list| - 1]) + (if Announces(prev, l) then [l] else [])
  }

  /** The panes a poll finds gone; each gets a stale mark and a tmux.pane.closed. */
  function Vanished(db: Panes, list: seq<Listed>): set<string> { Live(db).Keys - Keys(list) }

  function Reconcile(db: Panes, list: seq<Listed>, now: int): Panes {
    Stamp(UpsertAll(db, list), Vanished(db, list), now)
  }

  /** What a listing says: its last line for each key. */
  function Listing(list: seq<Listed>): map<string, Pane> {
    if list == [] then map[] else Listing(list[..|list| - 1])[list[|list| - 1].key := list[|list| - 1].pane]
  }

  lemma {:induction false} ListingKeys(list: seq<Listed>)
    ensures Listing(list).Keys == Keys(list)
  {
    if list != [] {
      var n := |list| - 1;
      ListingKeys(list[..n]);
      assert Keys(list) == Keys(list[..n]) + {list[n].key};
    }
  }

  lemma {:induction false} UpsertAllExact(db: Panes, list: seq<Listed>)
    ensures var db' := UpsertAll(db, list);
            && (forall k :: k in Listing(list) ==> k in db' && db'[k] == Row(Listing(list)[k], None))
            && (forall k :: k !in Listing(list) ==> (k in db' <==> k in db) && (k in db ==> db'[k] == db[k]))
  {
    if list != [] {
      UpsertAllExact(db, list[..|list| - 1]);
    }
  }

  /** After a poll that nothing interrupts the live panes are exactly the listed ones, as last listed. */
  lemma PollMirrorsListing(db: Panes, list: seq<Listed>, now: int)
    ensures Live(Reconcile(db, list, now)) == Listing(list)
  {
    UpsertAllExact(db, list);
    ListingKeys(list);
  }

  lemma NothingLive(db: Panes, now: int)
    ensures Live(MarkAllStale(db, now)) == map[]
  {}

  // ---------------------------------------------------------------- listings as text

  /** isIdle. */
  predicate IsIdle(cmd: string, shells: seq<string>) { cmd in shells }

  /** strconv.Atoi with its error ignored: zero for bad text, the nearest bound for a number too large. */
  function Number(s: string): int {
    match Atoi(s)
    case Some(n) => n
    case None =>
      var neg := s != "" && s[0] == '-';
      var body := if s != "" && (s[0] == '-' || s[0] == '+') then s[1..] else s;
      if body == "" || !AllDigits(body) then 0 else if neg then MIN_INT64 else MAX_INT64
  }

  /** One line of list-panes output; a short line or a bad index is skipped. */
  function ParseLine(host: string, line: string, shells: seq<string>): Option<Listed> {
    var f := Split(line, '\t');
    if |f| < 7 || Atoi(f[1]).None? || Atoi(f[2]).None? then None
    else
      var w, p := Atoi(f[1]).value, Atoi(f[2]).value;
      Some(Listed(PaneKey(f[0], w, p, host), Pane(f[0], w, p, Number(f[3]), f[4], f[5], f[6] == "1", IsIdle(f[4], shells))))
  }

  /** The rows of the non-blank lines that parse, in order. */
  function RowsOf<T>(lines: seq<string>, parse: string -> Option<T>): seq<T> {
    if lines == [] then [] else RowsOf(lines[..|lines| - 1], parse) + RowOf(lines[|lines| - 1], parse)
  }

  function RowOf<T>(line: string, parse: string -> Option<T>): seq<T> {
    var r := if Blank(line) then None else parse(line);
    if r.Some? then [r.value] else []
  }

  /** The loop both parsers run over splitLines. */
  method ReadRows<T>(lines: seq<string>, parse: string -> Option<T>) returns (rows: seq<T>)
    ensures rows == RowsOf(lines, parse)
  {
    rows := [];
    for i := 0 to |lines|
      invariant rows == RowsOf(lines[..i], parse)
    {
      assert lines[..i + 1][..i] == lines[..i];
      if !Blank(lines[i]) {
        var r := parse(lines[i]);
        if r.Some? {
          rows := rows + [r.value];
        }
      }
    }
    assert lines[..|lines|] == lines;
  }

  function PaneParser(host: string, shells: seq<string>): string -> Option<Listed> { line => ParseLine(host, line, shells) }

  method ParsePanes(host: string, out: string, shells: seq<string>) returns (rows: seq<Listed>)
    ensures rows == RowsOf(Split(out, '\n'), PaneParser(host, shells))
  {
    rows := ReadRows(Split(out, '\n'), PaneParser(host, shells));
  }

  function ParseSessionLine(host: string, line: string, branchOf: string -> string): Option<ListedSession> {
    var f := Split(line, '\t');
    if |f| < 2 then None else Some(ListedSession(SessionKey(f[0], host), Session(f[0], f[1], branchOf(f[1]))))
  }

  function SessionParser(host: string, branchOf: string -> string): string -> Option<ListedSession> {
    line => ParseSessionLine(host, line, branchOf)
  }

  method ParseSessions(host: string, out: string, branchOf: string -> string) returns (rows: seq<ListedSession>)
    ensures rows == RowsOf(Split(out, '\n'), SessionParser(host, branchOf))
  {
    rows := ReadRows(Split(out, '\n'), SessionParser(host, branchOf));
  }

  // ---------------------------------------------------------------- the store as it runs

  /** Which store call of a poll fails, if one does: the read of the live rows, or the n-th write of a kind. */
  datatype Faults = Faults(read: bool, session: Option<nat>, pane: Option<nat>, mark: Option<nat>)

  predicate Fails(at: Option<nat>, i: nat) { at == Some(i) }

  class Store {
    var panes: Panes
    var sessions: Sessions

    constructor ()
      ensures panes == map[] && sessions == map[]
    {
      panes, sessions := map[], map[];
    }

    /** markAllStale, both statements. */
    method Outage(now: int)
      modifies this
      ensures panes == MarkAllStale(old(panes), now) && sessions == MarkSessionsStale(old(sessions), now)
    {
      panes := map k | k in panes :: if panes[k].stale.None? then panes[k].(stale := Some(now)) else panes[k];
      sessions := map k | k in sessions :: if sessions[k].stale.None? then sessions[k].(stale := Some(now)) else sessions[k];
    }

    method StoreSessions(list: seq<ListedSession>, failAt: Option<nat>) returns (stored: nat)
      modifies this`sessions
      ensures stored == (if failAt.Some? && failAt.value < |list| then failAt.value else |list|)
      ensures sessions == UpsertSessions(old(sessions), list[..stored])
    {
      stored := 0;
      while stored < |list| && !Fails(failAt, stored)
        invariant 0 <= stored <= |list| && (failAt.Some? ==> stored <= failAt.value || |list| <= failAt.value)
        invariant sessions == UpsertSessions(old(sessions), list[..stored])
      {
        assert list[..stored + 1][..stored] == list[..stored];
        sessions := sessions[list[stored].key := SessionRow(list[stored].session, None)];
        stored := stored + 1;
      }
    }

    method UpsertPane(l: Listed)
      modifies this`panes
      ensures panes == Upsert(old(panes), l)
    {
      panes := panes[l.key := Row(l.pane, None)];
    }

    /** UPDATE ... WHERE key=? AND stale_since IS NULL. */
    method MarkPaneStale(k: string, now: int)
      modifies this`panes
      ensures panes == Stamp(old(panes), {k}, now)
    {
      if k in panes && panes[k].stale.None? {
        panes := panes[k := panes[k].(stale := Some(now))];
      }
      assert panes == Stamp(old(panes), {k}, now);
    }

    /** The pane loop: every listed pane is stored and, if new or changed, announced, until a store call fails. */
    method StoreListed(list: seq<Listed>, prev: map<string, Pane>, failAt: Option<nat>)
      returns (updates: seq<Listed>, seen: set<string>, stored: nat)
      modifies this`panes
      ensures stored == (if failAt.Some? && failAt.value < |list| then failAt.value else |list|)
      ensures panes == UpsertAll(old(panes), list[..stored])
      ensures updates == Updates(prev, list[..stored]) && seen == Keys(list[..stored])
    {
      updates, seen, stored := [], {}, 0;
      while stored < |list| && !Fails(failAt, stored)
        invariant 0 <= stored <= |list| && (failAt.Some? ==> stored <= failAt.value || |list| <= failAt.value)
        invariant panes == UpsertAll(old(panes), list[..stored])
        invariant updates == Updates(prev, list[..stored])
        invariant seen == Keys(list[..stored])
      {
        var l := list[stored];
        StoreOneMore(old(panes), prev, list, stored);
        UpsertPane(l);
        seen := seen + {l.key};
        if l.key !in prev || See(prev[l.key]) != See(l.pane) {
          updates := updates + [l];
        }
        stored := stored + 1;
      }
    }

    /** The closing loop: every vanished pane gets a stale mark and a closed event, until a store call fails. */
    method CloseAll(gone: set<string>, failAt: Option<nat>, now: int) returns (closed: seq<string>)
      modifies this`panes
      ensures |closed| == (if failAt.Some? && failAt.value < |gone| then failAt.value else |gone|)
      ensures Lists(closed, Elems(closed)) && Elems(closed) <= gone
      ensures |closed| == |gone| ==> Elems(closed) == gone
      ensures panes == Stamp(old(panes), Elems(closed), now)
    {
      var rest := gone;
      closed := [];
      StampNone(panes, now);
      assert gone - rest == {};
      while rest != {} && !Fails(failAt, |closed|)
        invariant rest <= gone && |closed| + |rest| == |gone|
        invariant failAt.Some? ==> |closed| <= failAt.value || |gone| <= failAt.value
        invariant panes == Stamp(old(panes), gone - rest, now)
        invariant Lists(closed, gone - rest)
        decreases rest
      {
        var k :| k in rest;
        TakeOne(gone, rest, k);
        StampMore(old(panes), gone - rest, k, now);
        ListsMore(closed, gone - rest, k);
        MarkPaneStale(k, now);
        closed := closed + [k];
        rest := rest - {k};
      }
      Stopped(closed, gone, rest);
    }

    /** A poll that reached the server, from the read of the live rows to the last closing. */
    method ReconcileNow(sess: seq<ListedSession>, list: seq<Listed>, faults: Faults, now: int)
      returns (updates: seq<Listed>, closed: seq<string>, stored: nat, ok: bool)
      modifies this
      ensures stored <= |list| && updates == Updates(Live(old(panes)), list[..stored])
      ensures Lists(closed, Elems(closed)) && Elems(closed) <= Vanished(old(panes), list)
      ensures panes == Stamp(UpsertAll(old(panes), list[..stored]), Elems(closed), now)
      ensures closed != [] ==> stored == |list|
      ensures ok <==> && !faults.read
                      && (faults.session.Some? ==> faults.session.value >= |sess|)
                      && (faults.pane.Some? ==> faults.pane.value >= |list|)
                      && (faults.mark.Some? ==> faults.mark.value >= |Vanished(old(panes), list)|)
      ensures ok ==> panes == Reconcile(old(panes), list, now) && sessions == UpsertSessions(old(sessions), sess)
      ensures ok ==> stored == |list| && Elems(closed) == Vanished(old(panes), list)
    {
      updates, closed, stored, ok := [], [], 0, false;
      NothingStored(panes, list, now);
      if faults.read {
        return;
      }
      var prev := Live(panes);
      var n := StoreSessions(sess, faults.session);
      if n < |sess| {
        return;
      }
      assert sess[..n] == sess;
      var seen;
      updates, seen, stored := StoreListed(list, prev, faults.pane);
      StampNone(panes, now);
      if stored < |list| {
        return;
      }
      assert list[..stored] == list;
      var gone := prev.Keys - seen;
      closed := CloseAll(gone, faults.mark, now);
      ok := |closed| == |gone|;
    }
  }

  lemma KeysStep(list: seq<Listed>)
    requires list != []
    ensures Keys(list) == Keys(list[..|list| - 1]) + {list[|list| - 1].key}
  {}

  lemma StampMore(db: Panes, keys: set<string>, k: string, now: int)
    ensures Stamp(Stamp(db, keys, now), {k}, now) == Stamp(db, keys + {k}, now)
  {}

  lemma StoreOneMore(db: Panes, prev: map<string, Pane>, list: seq<Listed>, i: nat)
    requires i < |list|
    ensures UpsertAll(db, list[..i + 1]) == Upsert(UpsertAll(db, list[..i]), list[i])
    ensures Updates(prev, list[..i + 1]) == Updates(prev, list[..i]) + (if Announces(prev, list[i]) then [list[i]] else [])
    ensures Keys(list[..i + 1]) == Keys(list[..i]) + {list[i].key}
  {
    assert list[..i + 1][..i] == list[..i];
    KeysStep(list[..i + 1]);
  }

  lemma StampNone(db: Panes, now: int)
    ensures Stamp(db, {}, now) == db
  {}

  lemma NothingStored(db: Panes, list: seq<Listed>, now: int)
    ensures Lists([], {}) && Elems([]) == {} && list[..0] == [] && db == Stamp(UpsertAll(db, list[..0]), {}, now)
    ensures Updates(Live(db), list[..0]) == []
  {
    StampNone(db, now);
  }
}
