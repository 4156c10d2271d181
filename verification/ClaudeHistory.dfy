/**
 * Three-channel authority: what a session's row holds, said in terms of the writes the session has
 * received since it was last created, for every run of hooks, transcript lines, state files, liveness
 * sweeps and prunes.
 */
module ClaudeHistory {
  import opened Options
  import opened ClaudeStore

  /** What one store call told one session. A fold that the dedup set refused leaves no note. */
  datatype Note =
    | FoldNote(fi: FoldInput, host: string, at: int)
    | EnrichNote(e: Enrichment, host: string, at: int)
    | FileNote(sf: StateFile, title: string, host: string, at: int)
    | DeadNote(at: int)

  type History = map<string, seq<Note>>

  function NotesOf(h: History, sid: string): seq<Note> { if sid in h then h[sid] else [] }

  function Told(h: History, sid: string, n: Note): History { h[sid := NotesOf(h, sid) + [n]] }

  /** The history after one store call. */
  function Noted(db: Db, h: History, op: Op): History {
    match op
    case Fold(fi, host, now) => if KeyOf(fi) in db.folds then h else Told(h, fi.sid, FoldNote(fi, host, now))
    case Enrich(sid, host, e, now) => Told(h, sid, EnrichNote(e, host, now))
    case File(sf, title, host, now) => Told(h, sf.sid, FileNote(sf, title, host, now))
    case Sweep(now, live) =>
      map sid | sid in h :: if sid in db.rows && Dead(db.rows[sid], live) then h[sid] + [DeadNote(now)] else h[sid]
    case Clean(cutoff) => h - Expired(db, cutoff)
  }

  function RunHistory(ops: seq<Op>): History {
    if ops == [] then map[]
    else Noted(Run(EMPTY, ops[..|ops| - 1]), RunHistory(ops[..|ops| - 1]), ops[|ops| - 1])
  }

  // ---------------------------------------------------------------- what the row should hold

  /** The word for what a session is doing after each event. */
  function Word(e: Event, ask: bool): string {
    match e
    case SessionStart => "idle"
    case UserPromptSubmit => "working"
    case PreToolUse => "working"
    case PostToolUse => "working"
    case Notification => if ask then "input" else "idle"
    case Stop => "idle"
    case SessionEnd => "ended"
    case Unknown(_) => ""
  }

  /** The word of the last fold, if there was one. */
  function LastFold(ns: seq<Note>): Option<string> {
    if ns == [] then None
    else
      var n := ns[|ns| - 1];
      if n.FoldNote? then Some(Word(n.fi.event, n.fi.ask)) else LastFold(ns[..|ns| - 1])
  }

  /** The last non-empty state a state file gave, else idle. */
  function LastFileState(ns: seq<Note>): string {
    if ns == [] then "idle"
    else
      var n := ns[|ns| - 1];
      if n.FileNote? && n.sf.state != "" then n.sf.state else LastFileState(ns[..|ns| - 1])
  }

  function ExpectedState(ns: seq<Note>): string {
    match LastFold(ns) case Some(s) => s case None => LastFileState(ns)
  }

  /** The time of the last SessionEnd fold or liveness mark. */
  function LastStale(ns: seq<Note>): Option<int> {
    if ns == [] then None
    else
      var n := ns[|ns| - 1];
      if n.DeadNote? || (n.FoldNote? && n.fi.event == SessionEnd) then Some(n.at) else LastStale(ns[..|ns| - 1])
  }

  datatype Col = Cwd | Branch | Model | Pane | PrUrl | LastTool | Mission | Response | Title
  datatype NumCol = Issue | Pid | PrNumber

  function Text(r: Row, c: Col): string {
    match c
    case Cwd => r.cwd
    case Branch => r.branch
    case Model => r.model
    case Pane => r.pane
    case PrUrl => r.prUrl
    case LastTool => r.lastTool
    case Mission => r.mission
    case Response => r.response
    case Title => r.title
  }

  function Num(r: Row, c: NumCol): int {
    match c
    case Issue => r.issue
    case Pid => r.pid
    case PrNumber => r.prNumber
  }

  function EnrichText(e: Enrichment, c: Col): string {
    match c
    case Cwd => e.cwd
    case Branch => e.branch
    case Model => e.model
    case PrUrl => e.prUrl
    case _ => ""
  }

  /** What a note says about a column; empty when it says nothing. */
  function NoteText(n: Note, c: Col): string {
    match n
    case FoldNote(fi, _, _) =>
      if c == Pane then fi.pane
      else if c == LastTool then (if fi.event == PreToolUse then fi.tool else "")
      else EnrichText(fi.enrich, c)
    case EnrichNote(e, _, _) => EnrichText(e, c)
    case FileNote(sf, title, _, _) =>
      (match c
       case Cwd => sf.cwd
       case Pane => sf.pane
       case Mission => Truncated(sf.firstPrompt, MISSION_MAX)
       case Response => Truncated(sf.lastResponse, RESPONSE_MAX)
       case Title => title
       case _ => "")
    case DeadNote(_) => ""
  }

  function EnrichNum(e: Enrichment, c: NumCol): int {
    match c
    case Issue => e.issue
    case Pid => 0
    case PrNumber => e.prNumber
  }

  function NoteNum(n: Note, c: NumCol): int {
    match n
    case FoldNote(fi, _, _) => if c == Pid then fi.pid else EnrichNum(fi.enrich, c)
    case EnrichNote(e, _, _) => EnrichNum(e, c)
    case FileNote(sf, _, _, _) => if c == Pid then sf.pid else 0
    case DeadNote(_) => 0
  }

  /** The last non-empty value any channel gave a column. */
  function LastText(ns: seq<Note>, c: Col): string {
    if ns == [] then ""
    else if NoteText(ns[|ns| - 1], c) != "" then NoteText(ns[|ns| - 1], c)
    else LastText(ns[..|ns| - 1], c)
  }

  function LastNum(ns: seq<Note>, c: NumCol): int {
    if ns == [] then 0
    else if NoteNum(ns[|ns| - 1], c) != 0 then NoteNum(ns[|ns| - 1], c)
    else LastNum(ns[..|ns| - 1], c)
  }

  /** A state file says something about a session that its notes do not say already. */
  ghost predicate FileChanges(ns: seq<Note>, n: Note) {
    n.FileNote? &&
    (|| (exists c :: NoteText(n, c) != "" && NoteText(n, c) != LastText(ns, c))
     || (exists c :: NoteNum(n, c) != 0 && NoteNum(n, c) != LastNum(ns, c))
     || (LastFold(ns).None? && n.sf.state != "" && n.sf.state != LastFileState(ns)))
  }

  /** The time of the last fold, enrichment, or state file that created or changed the row. */
  ghost function LastEvent(ns: seq<Note>): int {
    if ns == [] then 0
    else
      var n, init := ns[|ns| - 1], ns[..|ns| - 1];
      if n.FoldNote? || n.EnrichNote? || (n.FileNote? && (init == [] || FileChanges(init, n))) then n.at else LastEvent(init)
  }

  /** The distinct PreToolUse entries of a session in the dedup set. */
  function Calls(folds: set<FoldKey>, sid: string): set<FoldKey> {
    set f | f in folds && f.sid == sid && f.event == PreToolUse
  }

  /** A row that says exactly what its session's notes say. */
  ghost predicate RowSays(r: Row, ns: seq<Note>) {
    && ns != []
    && !ns[0].DeadNote? && r.host == ns[0].host && r.started == ns[0].at
    && r.lastEvent == LastEvent(ns)
    && r.state == ExpectedState(ns)
    && r.stale == LastStale(ns)
    && (forall c :: Text(r, c) == LastText(ns, c))
    && (forall c :: Num(r, c) == LastNum(ns, c))
  }

  ghost predicate SessionOk(db: Db, h: History, sid: string) {
    && (sid in db.rows <==> sid in h)
    && (sid in db.rows ==> RowSays(db.rows[sid], h[sid]) && db.rows[sid].toolCalls == |Calls(db.folds, sid)|)
    && (HasFold(db, sid) <==> sid in h && LastFold(h[sid]).Some?)
  }

  ghost predicate Agrees(db: Db, h: History) {
    forall sid :: SessionOk(db, h, sid)
  }

  /** A store call some channel can make: hooks refuse unknown events and transcripts only make PreToolUse folds. */
  predicate OpOk(op: Op) { op.Fold? ==> !op.fi.event.Unknown? }

  // ---------------------------------------------------------------- one note more

  lemma OneMore(ns: seq<Note>, n: Note)
    ensures (ns + [n])[..|ns|] == ns && (ns + [n])[|ns|] == n && (ns != [] ==> (ns + [n])[0] == ns[0])
  {}

  lemma MoreText(ns: seq<Note>, n: Note)
    ensures forall c :: LastText(ns + [n], c) == Pick(NoteText(n, c), LastText(ns, c))
    ensures forall c :: LastNum(ns + [n], c) == PickNum(NoteNum(n, c), LastNum(ns, c))
  {
    OneMore(ns, n);
  }

  lemma MoreState(ns: seq<Note>, n: Note)
    ensures n.FoldNote? ==> LastFold(ns + [n]) == Some(Word(n.fi.event, n.fi.ask))
    ensures !n.FoldNote? ==> LastFold(ns + [n]) == LastFold(ns)
    ensures LastFileState(ns + [n]) == if n.FileNote? && n.sf.state != "" then n.sf.state else LastFileState(ns)
    ensures LastStale(ns + [n]) == if n.DeadNote? || (n.FoldNote? && n.fi.event == SessionEnd) then Some(n.at) else LastStale(ns)
  {
    OneMore(ns, n);
  }

  lemma MoreEvent(ns: seq<Note>, n: Note)
    ensures LastEvent(ns + [n]) ==
            if n.FoldNote? || n.EnrichNote? || (n.FileNote? && (ns == [] || FileChanges(ns, n))) then n.at else LastEvent(ns)
  {
    OneMore(ns, n);
  }

  /** A session with no notes yet reads like a row just inserted. */
  ghost predicate Reads(r: Row, ns: seq<Note>) {
    && r.state == ExpectedState(ns)
    && r.stale == LastStale(ns)
    && (forall c :: Text(r, c) == LastText(ns, c))
    && (forall c :: Num(r, c) == LastNum(ns, c))
  }

  lemma BaseReads(db: Db, h: History, sid: string, host: string, now: int)
    requires SessionOk(db, h, sid)
    ensures Reads(BaseRow(db, sid, host, now), NotesOf(h, sid))
    ensures sid in h ==> h[sid] != [] && !h[sid][0].DeadNote?
    ensures BaseRow(db, sid, host, now).started == if sid in h then h[sid][0].at else now
    ensures BaseRow(db, sid, host, now).host == if sid in h then h[sid][0].host else host
  {}

  lemma FoldColumns(r: Row, fi: FoldInput, prev: string, host: string, now: int)
    ensures var r', n := FoldRow(r, fi, FoldState(prev, fi.event, fi.ask), now), FoldNote(fi, host, now);
            && (forall c :: Text(r', c) == Pick(NoteText(n, c), Text(r, c)))
            && (forall c :: Num(r', c) == PickNum(NoteNum(n, c), Num(r, c)))
  {}

  lemma FoldReads(r: Row, ns: seq<Note>, fi: FoldInput, prev: string, host: string, now: int)
    requires Reads(r, ns) && !fi.event.Unknown?
    ensures Reads(FoldRow(r, fi, FoldState(prev, fi.event, fi.ask), now), ns + [FoldNote(fi, host, now)])
  {
    FoldColumns(r, fi, prev, host, now);
    MoreText(ns, FoldNote(fi, host, now));
    MoreState(ns, FoldNote(fi, host, now));
  }

  lemma EnrichReads(r: Row, ns: seq<Note>, e: Enrichment, host: string, now: int)
    requires Reads(r, ns)
    ensures Reads(EnrichRow(r, e, "", 0, now), ns + [EnrichNote(e, host, now)])
  {
    var n := EnrichNote(e, host, now);
    var r' := EnrichRow(r, e, "", 0, now);
    MoreText(ns, n);
    MoreState(ns, n);
    forall c ensures Text(r', c) == Pick(NoteText(n, c), Text(r, c)) {}
    forall c ensures Num(r', c) == PickNum(NoteNum(n, c), Num(r, c)) {}
  }

  lemma FileColumns(r: Row, sf: StateFile, title: string, folded: bool, host: string, now: int)
    ensures var r', n := FileRow(r, sf, title, folded), FileNote(sf, title, host, now);
            && (forall c :: Text(r', c) == Pick(NoteText(n, c), Text(r, c)))
            && (forall c :: Num(r', c) == PickNum(NoteNum(n, c), Num(r, c)))
  {}

  lemma FileReads(r: Row, ns: seq<Note>, sf: StateFile, title: string, host: string, now: int)
    requires Reads(r, ns)
    ensures Reads(FileRow(r, sf, title, LastFold(ns).Some?), ns + [FileNote(sf, title, host, now)])
  {
    FileColumns(r, sf, title, LastFold(ns).Some?, host, now);
    MoreText(ns, FileNote(sf, title, host, now));
    MoreState(ns, FileNote(sf, title, host, now));
  }

  /** A scan leaves the row alone exactly when the file says nothing new. */
  lemma FileQuietExactly(r: Row, ns: seq<Note>, sf: StateFile, title: string, host: string, now: int)
    requires Reads(r, ns)
    ensures FileRow(r, sf, title, LastFold(ns).Some?) == r <==> !FileChanges(ns, FileNote(sf, title, host, now))
  {
    var n, r' := FileNote(sf, title, host, now), FileRow(r, sf, title, LastFold(ns).Some?);
    FileColumns(r, sf, title, LastFold(ns).Some?, host, now);
    ColumnsDecide(r, r');
    assert forall c :: Text(r', c) == Text(r, c) <==> !(NoteText(n, c) != "" && NoteText(n, c) != LastText(ns, c));
    assert forall c :: Num(r', c) == Num(r, c) <==> !(NoteNum(n, c) != 0 && NoteNum(n, c) != LastNum(ns, c));
  }

  /** Two rows that share what no state file writes are equal exactly when their state and columns are. */
  lemma ColumnsDecide(r: Row, r': Row)
    requires r.host == r'.host && r.toolCalls == r'.toolCalls && r.started == r'.started && r.lastEvent == r'.lastEvent && r.stale == r'.stale
    ensures r' == r <==> r'.state == r.state && (forall c :: Text(r', c) == Text(r, c)) && (forall c :: Num(r', c) == Num(r, c))
  {
    if (forall c :: Text(r', c) == Text(r, c)) && (forall c :: Num(r', c) == Num(r, c)) {
      assert Text(r', Cwd) == Text(r, Cwd) && Text(r', Branch) == Text(r, Branch) && Text(r', Model) == Text(r, Model);
      assert Text(r', Pane) == Text(r, Pane) && Text(r', PrUrl) == Text(r, PrUrl) && Text(r', LastTool) == Text(r, LastTool);
      assert Text(r', Mission) == Text(r, Mission) && Text(r', Response) == Text(r, Response) && Text(r', Title) == Text(r, Title);
      assert Num(r', Issue) == Num(r, Issue) && Num(r', Pid) == Num(r, Pid) && Num(r', PrNumber) == Num(r, PrNumber);
    }
  }

  lemma DeadReads(r: Row, ns: seq<Note>, now: int)
    requires Reads(r, ns)
    ensures Reads(r.(stale := Some(now)), ns + [DeadNote(now)])
  {
    var n := DeadNote(now);
    var r' := r.(stale := Some(now));
    MoreText(ns, n);
    MoreState(ns, n);
    forall c ensures Text(r', c) == Text(r, c) {}
    forall c ensures Num(r', c) == Num(r, c) {}
  }

  // ---------------------------------------------------------------- the dedup set

  lemma CallsGrow(folds: set<FoldKey>, k: FoldKey, sid: string)
    requires k !in folds
    ensures |Calls(folds + {k}, sid)| == |Calls(folds, sid)| + (if k.sid == sid && k.event == PreToolUse then 1 else 0)
  {
    if k.sid == sid && k.event == PreToolUse {
      assert Calls(folds + {k}, sid) == Calls(folds, sid) + {k};
    } else {
      assert Calls(folds + {k}, sid) == Calls(folds, sid);
    }
  }

  lemma NoCalls(db: Db, sid: string)
    requires !HasFold(db, sid)
    ensures Calls(db.folds, sid) == {}
  {}

  // ---------------------------------------------------------------- every store call keeps the agreement

  lemma FoldKeeps(db: Db, h: History, fi: FoldInput, host: string, now: int, sid: string)
    requires Agrees(db, h) && !fi.event.Unknown? && KeyOf(fi) !in db.folds
    ensures SessionOk(ApplyFold(db, fi, host, now), Told(h, fi.sid, FoldNote(fi, host, now)), sid)
  {
    assert SessionOk(db, h, sid);
    CallsGrow(db.folds, KeyOf(fi), sid);
    if sid == fi.sid {
      FoldKeepsOwn(db, h, fi, host, now);
    } else {
      FoldElsewhere(db, KeyOf(fi), sid);
    }
  }

  lemma FoldKeepsOwn(db: Db, h: History, fi: FoldInput, host: string, now: int)
    requires SessionOk(db, h, fi.sid) && !fi.event.Unknown? && KeyOf(fi) !in db.folds
    ensures SessionOk(ApplyFold(db, fi, host, now), Told(h, fi.sid, FoldNote(fi, host, now)), fi.sid)
  {
    var sid, ns, n := fi.sid, NotesOf(h, fi.sid), FoldNote(fi, host, now);
    var db' := ApplyFold(db, fi, host, now);
    BaseReads(db, h, sid, host, now);
    FoldReads(BaseRow(db, sid, host, now), ns, fi, StateOf(db, sid), host, now);
    assert LastFold(ns + [n]).Some? by { MoreState(ns, n); }
    assert HasFold(db', sid) by { assert KeyOf(fi) in db'.folds; }
    assert Told(h, sid, n)[sid] == ns + [n];
    OneMore(ns, n);
    MoreEvent(ns, n);
    CallsGrow(db.folds, KeyOf(fi), sid);
    if sid !in db.rows {
      NoCalls(db, sid);
    }
  }

  lemma FoldElsewhere(db: Db, k: FoldKey, sid: string)
    requires k.sid != sid
    ensures forall rows :: HasFold(Db(rows, db.folds + {k}), sid) <==> HasFold(db, sid)
  {
    forall rows ensures HasFold(Db(rows, db.folds + {k}), sid) <==> HasFold(db, sid) {
      if HasFold(db, sid) {
        var f :| f in db.folds && f.sid == sid;
        assert f in Db(rows, db.folds + {k}).folds;
      }
    }
  }

  lemma EnrichKeeps(db: Db, h: History, s: string, host: string, e: Enrichment, now: int, sid: string)
    requires Agrees(db, h)
    ensures SessionOk(ApplyEnrichment(db, s, host, e, now), Told(h, s, EnrichNote(e, host, now)), sid)
  {
    assert SessionOk(db, h, sid);
    assert HasFold(ApplyEnrichment(db, s, host, e, now), sid) <==> HasFold(db, sid);
    if sid == s {
      var ns := NotesOf(h, sid);
      BaseReads(db, h, sid, host, now);
      EnrichReads(BaseRow(db, sid, host, now), ns, e, host, now);
      MoreState(ns, EnrichNote(e, host, now));
      OneMore(ns, EnrichNote(e, host, now));
      MoreEvent(ns, EnrichNote(e, host, now));
      if sid !in db.rows {
        NoCalls(db, sid);
      }
    }
  }

  lemma FileKeeps(db: Db, h: History, sf: StateFile, title: string, host: string, now: int, sid: string)
    requires Agrees(db, h)
    ensures SessionOk(ApplyStateFile(db, sf, title, host, now), Told(h, sf.sid, FileNote(sf, title, host, now)), sid)
  {
    assert SessionOk(db, h, sid);
    var db' := ApplyStateFile(db, sf, title, host, now);
    assert HasFold(db', sid) <==> HasFold(db, sid);
    if sid == sf.sid {
      var ns := NotesOf(h, sid);
      var r := BaseRow(db, sid, host, now);
      BaseReads(db, h, sid, host, now);
      FileReads(r, ns, sf, title, host, now);
      MoreState(ns, FileNote(sf, title, host, now));
      OneMore(ns, FileNote(sf, title, host, now));
      MoreEvent(ns, FileNote(sf, title, host, now));
      FileQuietExactly(r, ns, sf, title, host, now);
      Restamped(FileRow(r, sf, title, LastFold(ns).Some?), ns + [FileNote(sf, title, host, now)], now);
      if sid !in db.rows {
        NoCalls(db, sid);
      }
    }
  }

  lemma Restamped(r: Row, ns: seq<Note>, now: int)
    requires Reads(r, ns)
    ensures Reads(r.(lastEvent := now), ns)
  {
    forall c ensures Text(r.(lastEvent := now), c) == Text(r, c) {}
    forall c ensures Num(r.(lastEvent := now), c) == Num(r, c) {}
  }

  lemma SweepKeeps(db: Db, h: History, now: int, live: set<int>, sid: string)
    requires Agrees(db, h)
    ensures SessionOk(StaleScan(db, now, live), Noted(db, h, Sweep(now, live)), sid)
  {
    assert SessionOk(db, h, sid);
    assert HasFold(StaleScan(db, now, live), sid) <==> HasFold(db, sid);
    if sid in db.rows && Dead(db.rows[sid], live) {
      DeadReads(db.rows[sid], h[sid], now);
      MoreState(h[sid], DeadNote(now));
      OneMore(h[sid], DeadNote(now));
      MoreEvent(h[sid], DeadNote(now));
    }
  }

  lemma PruneKeeps(db: Db, h: History, cutoff: int, sid: string)
    requires Agrees(db, h)
    ensures SessionOk(Prune(db, cutoff), h - Expired(db, cutoff), sid)
  {
    assert SessionOk(db, h, sid);
    var db' := Prune(db, cutoff);
    if sid in Expired(db, cutoff) {
      assert !HasFold(db', sid);
    } else {
      assert Calls(db'.folds, sid) == Calls(db.folds, sid);
      if HasFold(db, sid) {
        var f :| f in db.folds && f.sid == sid;
        assert f in db'.folds;
      }
    }
  }

  lemma StepKeeps(db: Db, h: History, op: Op)
    requires Agrees(db, h) && OpOk(op)
    ensures Agrees(Apply(db, op), Noted(db, h, op))
  {
    forall sid ensures SessionOk(Apply(db, op), Noted(db, h, op), sid) {
      assert SessionOk(db, h, sid);
      match op {
        case Fold(fi, host, now) =>
          if KeyOf(fi) !in db.folds {
            FoldKeeps(db, h, fi, host, now, sid);
          }
        case Enrich(s, host, e, now) => EnrichKeeps(db, h, s, host, e, now, sid);
        case File(sf, title, host, now) => FileKeeps(db, h, sf, title, host, now, sid);
        case Sweep(now, live) => SweepKeeps(db, h, now, live, sid);
        case Clean(cutoff) => PruneKeeps(db, h, cutoff, sid);
      }
    }
  }

  /** Every reachable store agrees with its history, in every column of every session. */
  lemma {:induction false} RunAgrees(ops: seq<Op>)
    requires forall i :: 0 <= i < |ops| ==> OpOk(ops[i])
    ensures Agrees(Run(EMPTY, ops), RunHistory(ops))
  {
    if ops == [] {
      forall sid ensures SessionOk(EMPTY, map[], sid) {}
    } else {
      var n := |ops| - 1;
      RunAgrees(ops[..n]);
      StepKeeps(Run(EMPTY, ops[..n]), RunHistory(ops[..n]), ops[n]);
    }
  }

  /**
   * Three-channel authority, column by column. tool_calls counts the distinct PreToolUse entries of the
   * dedup set; state is the last applied fold's word if any fold exists, else the last non-empty
   * state-file state, else idle; a session with no row has no folds.
   */
  lemma Authority(ops: seq<Op>, sid: string)
    requires forall i :: 0 <= i < |ops| ==> OpOk(ops[i])
    ensures var db, h := Run(EMPTY, ops), RunHistory(ops);
            && (sid !in db.rows ==> forall f :: f in db.folds ==> f.sid != sid)
            && (sid in db.rows ==>
                  && sid in h
                  && db.rows[sid].toolCalls == |Calls(db.folds, sid)|
                  && (HasFold(db, sid) ==> LastFold(h[sid]) == Some(db.rows[sid].state))
                  && (!HasFold(db, sid) ==> db.rows[sid].state == LastFileState(h[sid])))
  {
    RunAgrees(ops);
    var db, h := Run(EMPTY, ops), RunHistory(ops);
    assert SessionOk(db, h, sid);
    if f :| sid !in db.rows && f in db.folds && f.sid == sid {
      assert HasFold(db, sid);
    }
  }

  lemma {:induction false} ToolsQualify(rec: Record, tools: seq<string>, host: string, now: int, nowText: string)
    ensures forall i :: 0 <= i < |ToolOps(rec, tools, host, now, nowText)| ==> OpOk(ToolOps(rec, tools, host, now, nowText)[i])
  {
    if tools != [] {
      ToolsQualify(rec, tools[..|tools| - 1], host, now, nowText);
    }
  }

  lemma {:induction false} InputsQualify(inputs: seq<Ingest>)
    ensures forall i :: 0 <= i < |AllOps(inputs)| ==> OpOk(AllOps(inputs)[i])
  {
    if inputs != [] {
      var n := |inputs| - 1;
      InputsQualify(inputs[..n]);
      if inputs[n].Line? && inputs[n].line.Some? {
        ToolsQualify(inputs[n].line.value, inputs[n].line.value.tools, inputs[n].host, inputs[n].now, inputs[n].nowText);
      }
    }
  }

  /** The same for whole runs of the channels: any hooks, good or refused, any lines, state files, sweeps and prunes. */
  lemma ChannelAuthority(inputs: seq<Ingest>, sid: string)
    ensures var db, h := Run(EMPTY, AllOps(inputs)), RunHistory(AllOps(inputs));
            SessionOk(db, h, sid)
  {
    InputsQualify(inputs);
    RunAgrees(AllOps(inputs));
  }

  /** stale_since, once set, stays set until the session is pruned. */
  lemma StaleSticks(db: Db, op: Op, sid: string)
    requires sid in db.rows && db.rows[sid].stale.Some? && !op.Clean?
    ensures sid in Apply(db, op).rows && Apply(db, op).rows[sid].stale.Some?
  {}
}
