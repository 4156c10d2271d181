/**
 * What a session's state says (plugins/claude/reducer.go:26-50, plugins/claude/hook.go and tail.go, and
 * plugins/claude/store.go:165-238 and 345-414), in the words the row holds, over whole runs of the channels.
 */
module ClaudeMeaning {
  import opened Options
  import opened ClaudeStore
  import opened ClaudeReplay
  import opened ClaudeHistory

  // ---------------------------------------------------------------- the words

  /** The word a session's row holds after an event was folded. */
  predicate StateSays(e: Event, ask: bool, state: string) {
    && (state == "working" <==> e == UserPromptSubmit || e == PreToolUse || e == PostToolUse)
    && (state == "input" <==> e == Notification && ask)
    && (state == "ended" <==> e == SessionEnd)
    && (state == "idle" <==> e == SessionStart || e == Stop || (e == Notification && !ask))
  }

  lemma FoldSays(prev: string, e: Event, ask: bool)
    requires !e.Unknown?
    ensures StateSays(e, ask, FoldState(prev, e, ask).next)
  {
    assert |"working"| == 7 && |"input"| == 5 && |"ended"| == 5 && |"idle"| == 4;
    assert "input"[0] == 'i' && "ended"[0] == 'e';
  }

  // ---------------------------------------------------------------- what a session was last told

  datatype Heard = Heard(event: Event, ask: bool)

  function After(inputs: seq<Ingest>): Db { Run(EMPTY, AllOps(inputs)) }

  function TextOr(ts: string, nowText: string): string { if ts == "" then nowText else ts }

  /**
   * An event that is folded into a session: a hook with a valid session and a known event, or a transcript line with
   * a tool_use block, whose event and time had not been folded before. A session that expires starts over.
   */
  function HeardFrom(db: Db, input: Ingest, before: Option<Heard>, sid: string): Option<Heard> {
    match input
    case Hook(fi, valid, _, _, nowText) =>
      if valid && !fi.event.Unknown? && fi.sid == sid && FoldKey(sid, fi.event, TextOr(fi.ts, nowText)) !in db.folds
      then Some(Heard(fi.event, fi.ask)) else before
    case Line(line, _, _, nowText) =>
      if line.Some? && sid != "" && line.value.sid == sid && line.value.tools != []
         && FoldKey(sid, PreToolUse, TextOr(line.value.ts, nowText)) !in db.folds
      then Some(Heard(PreToolUse, false)) else before
    case Pruned(cutoff) => if sid in db.rows && db.rows[sid].lastEvent < cutoff then None else before
    case _ => before
  }

  /** The last of them. */
  function LastHeard(inputs: seq<Ingest>, sid: string): Option<Heard> {
    if inputs == [] then None
    else
      var init := inputs[..|inputs| - 1];
      HeardFrom(After(init), inputs[|inputs| - 1], LastHeard(init, sid), sid)
  }

  function SaidFrom(db: Db, input: Ingest, before: string, sid: string): string {
    match input
    case Scanned(sf, _, _, _) => if sf.sid == sid && sf.state != "" then sf.state else before
    case Pruned(cutoff) => if sid in db.rows && db.rows[sid].lastEvent < cutoff then "idle" else before
    case _ => before
  }

  /** The last state a state file named, since the session last started over. */
  function LastSaid(inputs: seq<Ingest>, sid: string): string {
    if inputs == [] then "idle"
    else
      var init := inputs[..|inputs| - 1];
      SaidFrom(After(init), inputs[|inputs| - 1], LastSaid(init, sid), sid)
  }

  /** The row of a session and what it was told agree. */
  predicate Named(db: Db, heard: Option<Heard>, said: string, sid: string) {
    && (heard.Some? <==> HasFold(db, sid))
    && (sid !in db.rows ==> heard.None? && said == "idle")
    && (sid in db.rows && heard.Some? ==> StateSays(heard.value.event, heard.value.ask, db.rows[sid].state))
    && (sid in db.rows && heard.None? ==> db.rows[sid].state == said)
  }

  // ---------------------------------------------------------------- one store call

  function HeardBy(db: Db, op: Op, heard: Option<Heard>, sid: string): Option<Heard> {
    match op
    case Fold(fi, _, _) => if fi.sid == sid && KeyOf(fi) !in db.folds then Some(Heard(fi.event, fi.ask)) else heard
    case Clean(cutoff) => if sid in db.rows && db.rows[sid].lastEvent < cutoff then None else heard
    case _ => heard
  }

  function SaidBy(db: Db, op: Op, said: string, sid: string): string {
    match op
    case File(sf, _, _, _) => if sf.sid == sid && sf.state != "" then sf.state else said
    case Clean(cutoff) => if sid in db.rows && db.rows[sid].lastEvent < cutoff then "idle" else said
    case _ => said
  }

  lemma FoldNamed(db: Db, fi: FoldInput, host: string, now: int, heard: Option<Heard>, said: string, sid: string)
    requires Named(db, heard, said, sid) && !fi.event.Unknown?
    ensures Named(ApplyFold(db, fi, host, now), HeardBy(db, Fold(fi, host, now), heard, sid), said, sid)
  {
    var db' := ApplyFold(db, fi, host, now);
    if KeyOf(fi) !in db.folds {
      FoldSays(StateOf(db, fi.sid), fi.event, fi.ask);
      if fi.sid == sid {
        assert KeyOf(fi) in db'.folds;
      } else if HasFold(db, sid) {
        var f :| f in db.folds && f.sid == sid;
        assert f in db'.folds;
      }
    }
  }

  lemma FileNamed(db: Db, sf: StateFile, title: string, host: string, now: int, heard: Option<Heard>, said: string, sid: string)
    requires Named(db, heard, said, sid)
    ensures Named(ApplyStateFile(db, sf, title, host, now), heard, SaidBy(db, File(sf, title, host, now), said, sid), sid)
  {
    var db' := ApplyStateFile(db, sf, title, host, now);
    assert HasFold(db', sid) <==> HasFold(db, sid);
  }

  lemma OtherNamed(db: Db, op: Op, heard: Option<Heard>, said: string, sid: string)
    requires Named(db, heard, said, sid) && (op.Enrich? || op.Sweep?)
    ensures Named(Apply(db, op), heard, said, sid)
  {
    assert HasFold(Apply(db, op), sid) <==> HasFold(db, sid);
  }

  lemma CleanNamed(db: Db, cutoff: int, heard: Option<Heard>, said: string, sid: string)
    requires Named(db, heard, said, sid)
    ensures Named(Prune(db, cutoff), HeardBy(db, Clean(cutoff), heard, sid), SaidBy(db, Clean(cutoff), said, sid), sid)
  {
    var db' := Prune(db, cutoff);
    if sid in db.rows && db.rows[sid].lastEvent < cutoff {
      assert !HasFold(db', sid);
    } else if HasFold(db, sid) {
      var f :| f in db.folds && f.sid == sid;
      assert f in db'.folds;
    }
  }

  // ---------------------------------------------------------------- whole inputs

  /** What a line tells a session: its tool calls, unless they were folded before. */
  function ToolsHeard(db: Db, rec: Record, tools: seq<string>, nowText: string, heard: Option<Heard>, sid: string): Option<Heard> {
    if rec.sid == sid && tools != [] && FoldKey(sid, PreToolUse, TextOr(rec.ts, nowText)) !in db.folds
    then Some(Heard(PreToolUse, false)) else heard
  }

  lemma {:induction false} ToolsNamed(db: Db, rec: Record, tools: seq<string>, host: string, now: int, nowText: string,
                                      heard: Option<Heard>, said: string, sid: string)
    requires Named(db, heard, said, sid)
    ensures var db' := Run(db, ToolOps(rec, tools, host, now, nowText));
            && Named(db', ToolsHeard(db, rec, tools, nowText, heard, sid), said, sid)
            && db'.folds == if tools == [] then db.folds else db.folds + {FoldKey(rec.sid, PreToolUse, TextOr(rec.ts, nowText))}
    decreases tools
  {
    if tools != [] {
      var n := |tools| - 1;
      ToolsNamed(db, rec, tools[..n], host, now, nowText, heard, said, sid);
      var db1, fi := Run(db, ToolOps(rec, tools[..n], host, now, nowText)), ToolFold(rec, tools[n], nowText);
      ToolMore(db, rec, tools, host, now, nowText);
      FoldNamed(db1, fi, host, now, ToolsHeard(db, rec, tools[..n], nowText, heard, sid), said, sid);
    }
  }

  lemma ToolMore(db: Db, rec: Record, tools: seq<string>, host: string, now: int, nowText: string)
    requires tools != []
    ensures var n := |tools| - 1;
            Run(db, ToolOps(rec, tools, host, now, nowText))
            == ApplyFold(Run(db, ToolOps(rec, tools[..n], host, now, nowText)), ToolFold(rec, tools[n], nowText), host, now)
  {
    var n := |tools| - 1;
    var init := ToolOps(rec, tools[..n], host, now, nowText);
    var last := Fold(ToolFold(rec, tools[n], nowText), host, now);
    assert (init + [last])[..|init|] == init;
  }

  lemma RunOne(db: Db, op: Op)
    ensures Run(db, [op]) == Apply(db, op)
  {
    assert [op][..0] == [];
  }

  lemma LineNamed(db: Db, rec: Record, host: string, now: int, nowText: string, heard: Option<Heard>, said: string, sid: string)
    requires Named(db, heard, said, sid) && rec.sid != ""
    ensures Named(Run(db, LineOps(Some(rec), host, now, nowText)), ToolsHeard(db, rec, rec.tools, nowText, heard, sid), said, sid)
  {
    var op := Enrich(rec.sid, host, rec.e, now);
    var db1 := Apply(db, op);
    RunOne(db, op);
    RunConcat(db, [op], ToolOps(rec, rec.tools, host, now, nowText));
    OtherNamed(db, op, heard, said, sid);
    ToolsNamed(db1, rec, rec.tools, host, now, nowText, heard, said, sid);
  }

  lemma InputNamed(db: Db, input: Ingest, heard: Option<Heard>, said: string, sid: string)
    requires Named(db, heard, said, sid)
    ensures Named(Run(db, OpsOf(input)), HeardFrom(db, input, heard, sid), SaidFrom(db, input, said, sid), sid)
  {
    match input
    case Hook(fi, valid, host, now, nowText) =>
      if valid && !fi.event.Unknown? {
        RunOne(db, OpsOf(input)[0]);
        FoldNamed(db, fi.(ts := Stamped(fi.ts, nowText)), host, now, heard, said, sid);
      }
    case Line(line, host, now, nowText) =>
      if line.Some? && line.value.sid != "" {
        LineNamed(db, line.value, host, now, nowText, heard, said, sid);
      }
    case Scanned(sf, title, host, now) =>
      RunOne(db, OpsOf(input)[0]);
      FileNamed(db, sf, title, host, now, heard, said, sid);
    case Swept(now, live) =>
      RunOne(db, OpsOf(input)[0]);
      OtherNamed(db, OpsOf(input)[0], heard, said, sid);
    case Pruned(cutoff) =>
      RunOne(db, OpsOf(input)[0]);
      CleanNamed(db, cutoff, heard, said, sid);
  }

  lemma {:induction false} RunNamed(inputs: seq<Ingest>, sid: string)
    ensures Named(After(inputs), LastHeard(inputs, sid), LastSaid(inputs, sid), sid)
    decreases inputs
  {
    if inputs != [] {
      var init, last := inputs[..|inputs| - 1], inputs[|inputs| - 1];
      RunNamed(init, sid);
      RunConcat(EMPTY, AllOps(init), OpsOf(last));
      InputNamed(After(init), last, LastHeard(init, sid), LastSaid(init, sid), sid);
    }
  }

  /**
   * Over every run of hooks, good or refused, transcript lines, state files, sweeps and prunes: a session's state is
   * the word of the last event it was told, and if it was told none, what its state files last said, else idle.
   */
  lemma StateIsNamed(inputs: seq<Ingest>, sid: string)
    requires sid in After(inputs).rows
    ensures var heard, state := LastHeard(inputs, sid), After(inputs).rows[sid].state;
            && (heard.Some? ==> StateSays(heard.value.event, heard.value.ask, state))
            && (heard.None? ==> state == LastSaid(inputs, sid))
  {
    RunNamed(inputs, sid);
  }

  // ---------------------------------------------------------------- sweeps, prunes and prompts

  /** The store a run reached, and what it was told. */
  ghost predicate Reached(ops: seq<Op>, db: Db, h: History) {
    db == Run(EMPTY, ops) && h == RunHistory(ops) && forall i :: 0 <= i < |ops| ==> OpOk(ops[i])
  }

  /**
   * A sweep marks a session if and only if it was last told a pid, that process is gone, no end or mark of it is
   * known and it has not ended; and it changes nothing else of its row.
   */
  lemma SweepExactly(ops: seq<Op>, db: Db, h: History, now: int, live: set<int>, sid: string)
    requires Reached(ops, db, h) && sid in db.rows
    ensures sid in h && sid in Apply(db, Sweep(now, live)).rows
    ensures var gone := LastNum(h[sid], Pid) != 0 && LastNum(h[sid], Pid) !in live
                        && LastStale(h[sid]) == None && ExpectedState(h[sid]) != "ended";
            Apply(db, Sweep(now, live)).rows[sid] == if gone then db.rows[sid].(stale := Some(now)) else db.rows[sid]
  {
    RunAgrees(ops);
    SweptSays(db, h, now, live, sid);
  }

  lemma SweptSays(db: Db, h: History, now: int, live: set<int>, sid: string)
    requires SessionOk(db, h, sid) && sid in db.rows
    ensures var gone := LastNum(h[sid], Pid) != 0 && LastNum(h[sid], Pid) !in live
                        && LastStale(h[sid]) == None && ExpectedState(h[sid]) != "ended";
            StaleScan(db, now, live).rows[sid] == if gone then db.rows[sid].(stale := Some(now)) else db.rows[sid]
  {
    assert Num(db.rows[sid], Pid) == LastNum(h[sid], Pid);
  }

  /** A prune forgets a session, row and folds, if and only if the last thing that reached it came before the cutoff. */
  lemma PruneExactly(ops: seq<Op>, db: Db, h: History, cutoff: int, sid: string)
    requires Reached(ops, db, h) && sid in db.rows
    ensures sid in h
    ensures LastEvent(h[sid]) < cutoff ==> sid !in Apply(db, Clean(cutoff)).rows && !HasFold(Apply(db, Clean(cutoff)), sid)
    ensures LastEvent(h[sid]) >= cutoff ==> Untouched(db, Apply(db, Clean(cutoff)), sid)
  {
    RunAgrees(ops);
    PrunedSays(db, h, cutoff, sid);
  }

  /** The session's row and folds are as they were. */
  predicate Untouched(db: Db, after: Db, sid: string)
    requires sid in db.rows
  {
    && sid in after.rows && after.rows[sid] == db.rows[sid]
    && (forall f :: f in db.folds && f.sid == sid ==> f in after.folds)
    && (forall f :: f in after.folds ==> f in db.folds)
  }

  lemma PrunedSays(db: Db, h: History, cutoff: int, sid: string)
    requires SessionOk(db, h, sid) && sid in db.rows
    ensures LastEvent(h[sid]) < cutoff ==> sid !in Prune(db, cutoff).rows && !HasFold(Prune(db, cutoff), sid)
    ensures LastEvent(h[sid]) >= cutoff ==> Untouched(db, Prune(db, cutoff), sid)
  {
    assert db.rows[sid].lastEvent == LastEvent(h[sid]);
  }

  /** `shown` is the first `n` characters of `text`, or all of it. */
  predicate FirstOf(shown: string, text: string, n: nat) { shown <= text && |shown| == if |text| <= n then |text| else n }

  /** A state file's prompt and response are shown to 120 and 200 characters, and an empty one keeps what was there. */
  lemma PromptsShown(db: Db, sf: StateFile, title: string, host: string, now: int)
    ensures var r := BaseRow(db, sf.sid, host, now);
            var after := Apply(db, File(sf, title, host, now));
            && sf.sid in after.rows
            && (sf.firstPrompt != "" ==> FirstOf(after.rows[sf.sid].mission, sf.firstPrompt, 120))
            && (sf.firstPrompt == "" ==> after.rows[sf.sid].mission == r.mission)
            && (sf.lastResponse != "" ==> FirstOf(after.rows[sf.sid].response, sf.lastResponse, 200))
            && (sf.lastResponse == "" ==> after.rows[sf.sid].response == r.response)
  {}
}
