/**
 * plugins/claude/store.go:95-238 and 345-414 with plugins/claude/reducer.go:31-50: the session table
 * and the dedup set, and the five store calls that write them. Each store call is one atomic step.
 */
module ClaudeStore {
  import opened Options
  import opened RowLists

  /** The seven lifecycle events, and any other name. */
  datatype Event = SessionStart | UserPromptSubmit | PreToolUse | PostToolUse | Notification | Stop | SessionEnd | Unknown(name: string)

  const IDLE := "idle"
  const WORKING := "working"
  const INPUT := "input"
  const ENDED := "ended"

  datatype Folded = Folded(next: string, toolCall: bool, ended: bool)

  function FoldState(prev: string, event: Event, ask: bool): Folded {
    match event
    case SessionStart => Folded(IDLE, false, false)
    case Stop => Folded(IDLE, false, false)
    case UserPromptSubmit => Folded(WORKING, false, false)
    case PostToolUse => Folded(WORKING, false, false)
    case PreToolUse => Folded(WORKING, true, false)
    case Notification => Folded(if ask then INPUT else IDLE, false, false)
    case SessionEnd => Folded(ENDED, false, true)
    case Unknown(_) => Folded(prev, false, false)
  }

  datatype Enrichment = Enrichment(cwd: string, branch: string, model: string, prUrl: string, issue: int, prNumber: int)

  datatype FoldInput = FoldInput(sid: string, event: Event, ts: string, tool: string, ask: bool, pane: string, pid: int, enrich: Enrichment)

  datatype StateFile = StateFile(sid: string, cwd: string, pid: int, pane: string, state: string, firstPrompt: string, lastResponse: string)

  datatype Row = Row(
    host: string, cwd: string, branch: string, issue: int, model: string, state: string, lastTool: string, toolCalls: int,
    pane: string, pid: int, prNumber: int, prUrl: string, started: int, lastEvent: int, stale: Option<int>,
    mission: string, response: string, title: string)

  /** A row of claude_folds. */
  datatype FoldKey = FoldKey(sid: string, event: Event, ts: string)

  datatype Db = Db(rows: map<string, Row>, folds: set<FoldKey>)

  const EMPTY := Db(map[], {})

  /** The upsert rule of every optional column: an empty or zero value never replaces a stored one. */
  function Pick(incoming: string, stored: string): string { if incoming != "" then incoming else stored }

  function PickNum(incoming: int, stored: int): int { if incoming != 0 then incoming else stored }

  function Truncated(s: string, n: nat): string { if |s| <= n then s else s[..n] }

  const MISSION_MAX := 120
  const RESPONSE_MAX := 200

  // ---------------------------------------------------------------- the store calls as functions

  /** enrichSet. */
  function EnrichRow(r: Row, e: Enrichment, pane: string, pid: int, now: int): Row {
    r.(lastEvent := now, cwd := Pick(e.cwd, r.cwd), branch := Pick(e.branch, r.branch), issue := PickNum(e.issue, r.issue),
       model := Pick(e.model, r.model), pane := Pick(pane, r.pane), pid := PickNum(pid, r.pid),
       prNumber := PickNum(e.prNumber, r.prNumber), prUrl := Pick(e.prUrl, r.prUrl))
  }

  function NewRow(host: string, now: int): Row {
    Row(host, "", "", 0, "", IDLE, "", 0, "", 0, 0, "", now, now, None, "", "", "")
  }

  function KeyOf(fi: FoldInput): FoldKey { FoldKey(fi.sid, fi.event, fi.ts) }

  /** stateOf: the empty string when there is no row. */
  function StateOf(db: Db, sid: string): string { if sid in db.rows then db.rows[sid].state else "" }

  /** foldSQL on the row already there, or on the row it inserts. */
  function FoldRow(r: Row, fi: FoldInput, f: Folded, now: int): Row {
    EnrichRow(
      r.(state := f.next, toolCalls := r.toolCalls + (if f.toolCall then 1 else 0),
         lastTool := Pick(if f.toolCall then fi.tool else "", r.lastTool),
         stale := if f.ended then Some(now) else r.stale),
      fi.enrich, fi.pane, fi.pid, now)
  }

  function BaseRow(db: Db, sid: string, host: string, now: int): Row { if sid in db.rows then db.rows[sid] else NewRow(host, now) }

  function ApplyFold(db: Db, fi: FoldInput, host: string, now: int): Db {
    if KeyOf(fi) in db.folds then db
    else
      var f := FoldState(StateOf(db, fi.sid), fi.event, fi.ask);
      Db(db.rows[fi.sid := FoldRow(BaseRow(db, fi.sid, host, now), fi, f, now)], db.folds + {KeyOf(fi)})
  }

  function ApplyEnrichment(db: Db, sid: string, host: string, e: Enrichment, now: int): Db {
    db.(rows := db.rows[sid := EnrichRow(BaseRow(db, sid, host, now), e, "", 0, now)])
  }

  predicate HasFold(db: Db, sid: string) { exists f :: f in db.folds && f.sid == sid }

  /** The columns a state file can write, laid over the stored row. */
  function FileRow(r: Row, sf: StateFile, title: string, folded: bool): Row {
    r.(cwd := Pick(sf.cwd, r.cwd), pane := Pick(sf.pane, r.pane), mission := Pick(Truncated(sf.firstPrompt, MISSION_MAX), r.mission),
       response := Pick(Truncated(sf.lastResponse, RESPONSE_MAX), r.response), title := Pick(title, r.title),
       pid := PickNum(sf.pid, r.pid), state := if folded then r.state else Pick(sf.state, r.state))
  }

  /** A scan that changes no column leaves last_event_at alone too. */
  function ApplyStateFile(db: Db, sf: StateFile, title: string, host: string, now: int): Db {
    var r := BaseRow(db, sf.sid, host, now);
    var r' := FileRow(r, sf, title, HasFold(db, sf.sid));
    if sf.sid in db.rows && r' == r then db else db.(rows := db.rows[sf.sid := r'.(lastEvent := now)])
  }

  /** A live row of a process that is gone. */
  predicate Dead(r: Row, live: set<int>) { r.pid != 0 && r.state != ENDED && r.stale.None? && r.pid !in live }

  function SweptRow(r: Row, live: set<int>, now: int): Row { if Dead(r, live) then r.(stale := Some(now)) else r }

  function StaleScan(db: Db, now: int, live: set<int>): Db {
    db.(rows := map sid | sid in db.rows :: SweptRow(db.rows[sid], live, now))
  }

  function Expired(db: Db, cutoff: int): set<string> { set sid | sid in db.rows && db.rows[sid].lastEvent < cutoff }

  function Forget(db: Db, sids: set<string>): Db { Db(db.rows - sids, set f | f in db.folds && f.sid !in sids) }

  function Prune(db: Db, cutoff: int): Db { Forget(db, Expired(db, cutoff)) }

  // ---------------------------------------------------------------- the channels

  /** One store call. */
  datatype Op =
    | Fold(fi: FoldInput, host: string, now: int)
    | Enrich(sid: string, host: string, e: Enrichment, now: int)
    | File(sf: StateFile, title: string, host: string, now: int)
    | Sweep(now: int, live: set<int>)
    | Clean(cutoff: int)

  function Apply(db: Db, op: Op): Db {
    match op
    case Fold(fi, host, now) => ApplyFold(db, fi, host, now)
    case Enrich(sid, host, e, now) => ApplyEnrichment(db, sid, host, e, now)
    case File(sf, title, host, now) => ApplyStateFile(db, sf, title, host, now)
    case Sweep(now, live) => StaleScan(db, now, live)
    case Clean(cutoff) => Prune(db, cutoff)
  }

  function Run(db: Db, ops: seq<Op>): Db {
    if ops == [] then db else Apply(Run(db, ops[..|ops| - 1]), ops[|ops| - 1])
  }

  /** A decoded transcript line: its session, its fields, and the names of its tool_use blocks. */
  datatype Record = Record(sid: string, ts: string, e: Enrichment, tools: seq<string>)

  function Stamped(ts: string, nowText: string): string { if ts == "" then nowText else ts }

  function ToolFold(rec: Record, tool: string, nowText: string): FoldInput {
    FoldInput(rec.sid, PreToolUse, Stamped(rec.ts, nowText), tool, false, "", 0, rec.e)
  }

  function ToolOps(rec: Record, tools: seq<string>, host: string, now: int, nowText: string): seq<Op> {
    if tools == [] then []
    else ToolOps(rec, tools[..|tools| - 1], host, now, nowText) + [Fold(ToolFold(rec, tools[|tools| - 1], nowText), host, now)]
  }

  /** foldLine: an undecodable line, or one with no session, does nothing. */
  function LineOps(line: Option<Record>, host: string, now: int, nowText: string): seq<Op> {
    if line.None? || line.value.sid == "" then []
    else [Enrich(line.value.sid, host, line.value.e, now)] + ToolOps(line.value, line.value.tools, host, now, nowText)
  }

  /** handleHook: an unknown event or an invalid session is refused and stores nothing. */
  function HookOps(fi: FoldInput, validSid: bool, host: string, now: int, nowText: string): seq<Op> {
    if !validSid || fi.event.Unknown? then [] else [Fold(fi.(ts := Stamped(fi.ts, nowText)), host, now)]
  }

  /** One thing that reaches the plugin, on any of its channels. */
  datatype Ingest =
    | Hook(fi: FoldInput, validSid: bool, host: string, now: int, nowText: string)
    | Line(line: Option<Record>, host: string, now: int, nowText: string)
    | Scanned(sf: StateFile, title: string, host: string, now: int)
    | Swept(now: int, live: set<int>)
    | Pruned(cutoff: int)

  function OpsOf(input: Ingest): seq<Op> {
    match input
    case Hook(fi, validSid, host, now, nowText) => HookOps(fi, validSid, host, now, nowText)
    case Line(line, host, now, nowText) => LineOps(line, host, now, nowText)
    case Scanned(sf, title, host, now) => [File(sf, title, host, now)]
    case Swept(now, live) => [Sweep(now, live)]
    case Pruned(cutoff) => [Clean(cutoff)]
  }

  function AllOps(inputs: seq<Ingest>): seq<Op> {
    if inputs == [] then [] else AllOps(inputs[..|inputs| - 1]) + OpsOf(inputs[|inputs| - 1])
  }

  // ---------------------------------------------------------------- the store as it runs

  class Store {
    var rows: map<string, Row>
    var folds: set<FoldKey>

    ghost function State(): Db
      reads this
    {
      Db(rows, folds)
    }

    constructor ()
      ensures State() == EMPTY
    {
      rows := map[];
      folds := {};
    }

    method Upsert(sid: string, r: Row)
      modifies this`rows
      ensures rows == old(rows)[sid := r]
    {
      rows := rows[sid := r];
    }

    method Fold(fi: FoldInput, host: string, now: int) returns (applied: bool)
      modifies this
      ensures State() == ApplyFold(old(State()), fi, host, now)
      ensures applied <==> KeyOf(fi) !in old(folds)
    {
      if KeyOf(fi) in folds {
        return false;
      }
      folds := folds + {KeyOf(fi)};
      var prev := if fi.sid in rows then rows[fi.sid].state else "";
      var f := FoldState(prev, fi.event, fi.ask);
      var base := if fi.sid in rows then rows[fi.sid] else NewRow(host, now);
      Upsert(fi.sid, FoldRow(base, fi, f, now));
      applied := true;
    }

    method Enrich(sid: string, host: string, e: Enrichment, now: int)
      modifies this
      ensures State() == ApplyEnrichment(old(State()), sid, host, e, now)
    {
      var base := if sid in rows then rows[sid] else NewRow(host, now);
      Upsert(sid, EnrichRow(base, e, "", 0, now));
    }

    method File(sf: StateFile, title: string, host: string, now: int) returns (changed: bool)
      modifies this
      ensures State() == ApplyStateFile(old(State()), sf, title, host, now)
      ensures changed <==> sf.sid !in old(rows) || FileRow(old(rows)[sf.sid], sf, title, HasFold(old(State()), sf.sid)) != old(rows)[sf.sid]
    {
      var base := if sf.sid in rows then rows[sf.sid] else NewRow(host, now);
      var r := FileRow(base, sf, title, HasFold(Db(rows, folds), sf.sid));
      if sf.sid in rows && r == rows[sf.sid] {
        return false;
      }
      Upsert(sf.sid, r.(lastEvent := now));
      changed := true;
    }

    /** staleScan: the dead sessions are collected first, then marked one by one. */
    method Scan(now: int, live: set<int>) returns (out: seq<string>)
      modifies this
      ensures State() == StaleScan(old(State()), now, live)
      ensures Lists(out, set sid | sid in old(rows) && Dead(old(rows)[sid], live))
    {
      var dead := set sid | sid in rows && Dead(rows[sid], live);
      var rest := dead;
      out := [];
      assert dead - rest == {};
      MarkNone(rows, now);
      while rest != {}
        invariant rest <= dead && folds == old(folds)
        invariant rows == Marked(old(rows), dead - rest, now)
        invariant Lists(out, dead - rest)
        decreases rest
      {
        var sid :| sid in rest;
        MarkMore(old(rows), dead - rest, sid, now);
        ListsMore(out, dead - rest, sid);
        rows := rows[sid := rows[sid].(stale := Some(now))];
        out := out + [sid];
        assert dead - (rest - {sid}) == (dead - rest) + {sid};
        rest := rest - {sid};
      }
      assert dead - rest == dead;
      MarkDead(old(rows), dead, now, live);
    }

    /** prune: the expired sessions are collected first, then deleted one by one with their folds. */
    method PruneOld(cutoff: int)
      modifies this
      ensures State() == Prune(old(State()), cutoff)
    {
      var old' := set sid | sid in rows && rows[sid].lastEvent < cutoff;
      var rest := old';
      assert old' - rest == {};
      ForgetNone(State());
      while rest != {}
        invariant rest <= old'
        invariant State() == Forget(old(State()), old' - rest)
        decreases rest
      {
        var sid :| sid in rest;
        ForgetMore(old(State()), old' - rest, sid);
        rows := rows - {sid};
        folds := set f | f in folds && f.sid !in {sid};
        assert old' - (rest - {sid}) == (old' - rest) + {sid};
        rest := rest - {sid};
      }
      assert old' - rest == old';
    }
  }

  function Marked(rows: map<string, Row>, sids: set<string>, now: int): map<string, Row> {
    map sid | sid in rows :: if sid in sids then rows[sid].(stale := Some(now)) else rows[sid]
  }

  lemma MarkNone(rows: map<string, Row>, now: int)
    ensures Marked(rows, {}, now) == rows
  {}

  lemma MarkMore(rows: map<string, Row>, sids: set<string>, sid: string, now: int)
    requires sid in rows && sid !in sids
    ensures var m := Marked(rows, sids, now); m[sid := m[sid].(stale := Some(now))] == Marked(rows, sids + {sid}, now)
  {}

  lemma MarkDead(rows: map<string, Row>, dead: set<string>, now: int, live: set<int>)
    requires dead == set sid | sid in rows && Dead(rows[sid], live)
    ensures Marked(rows, dead, now) == map sid | sid in rows :: SweptRow(rows[sid], live, now)
  {}

  lemma ForgetNone(db: Db)
    ensures Forget(db, {}) == db
  {
    assert db.rows - {} == db.rows;
  }

  lemma ForgetMore(db: Db, sids: set<string>, sid: string)
    ensures Forget(Forget(db, sids), {sid}) == Forget(db, sids + {sid})
  {
    assert db.rows - sids - {sid} == db.rows - (sids + {sid});
  }
}
