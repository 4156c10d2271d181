/**
 * Duplicates vanish: plugins/claude/store.go:123-150 with plugins/claude/tail.go:93-97 and 129-146.
 * The columns that say what a session is doing are a machine of their own, which re-read transcript
 * lines cannot move.
 */
module ClaudeReplay {
  import opened Options
  import opened ClaudeStore

  // ---------------------------------------------------------------- runs

  lemma {:induction false} RunConcat(db: Db, a: seq<Op>, b: seq<Op>)
    ensures Run(db, a + b) == Run(Run(db, a), b)
    decreases b
  {
    if b == [] {
      assert a + b == a;
    } else {
      var n := |b| - 1;
      RunConcat(db, a, b[..n]);
      assert (a + b)[..|a + b| - 1] == a + b[..n];
    }
  }

  predicate NoPrune(ops: seq<Op>) { forall i :: 0 <= i < |ops| ==> !ops[i].Clean? }

  lemma ApplyGrows(db: Db, op: Op)
    requires !op.Clean?
    ensures db.folds <= Apply(db, op).folds && db.rows.Keys <= Apply(db, op).rows.Keys
    ensures op.Fold? ==> KeyOf(op.fi) in Apply(db, op).folds
  {}

  /** Without a prune, whatever was folded stays in the dedup set. */
  lemma {:induction false} RunRemembers(db: Db, ops: seq<Op>, i: nat)
    requires NoPrune(ops) && i < |ops| && ops[i].Fold?
    ensures KeyOf(ops[i].fi) in Run(db, ops).folds
    decreases ops
  {
    var n := |ops| - 1;
    ApplyGrows(Run(db, ops[..n]), ops[n]);
    if i < n {
      RunRemembers(db, ops[..n], i);
    }
  }

  /** An earlier call folds the same (session, event, timestamp). */
  predicate Repeats(ops: seq<Op>, op: Op) {
    op.Fold? && exists i :: 0 <= i < |ops| && ops[i].Fold? && KeyOf(ops[i].fi) == KeyOf(op.fi)
  }

  /** The run without its repeated folds. */
  function FirstOccurrences(ops: seq<Op>): seq<Op> {
    if ops == [] then []
    else
      var n := |ops| - 1;
      FirstOccurrences(ops[..n]) + (if Repeats(ops[..n], ops[n]) then [] else [ops[n]])
  }

  /** A prune-free run leaves the same database as its first occurrences: duplicates vanish entirely. */
  lemma {:induction false} DuplicatesVanish(db: Db, ops: seq<Op>)
    requires NoPrune(ops)
    ensures Run(db, FirstOccurrences(ops)) == Run(db, ops)
    decreases ops
  {
    if ops != [] {
      var n := |ops| - 1;
      DuplicatesVanish(db, ops[..n]);
      var firsts := FirstOccurrences(ops[..n]);
      if Repeats(ops[..n], ops[n]) {
        var i :| 0 <= i < n && ops[..n][i].Fold? && KeyOf(ops[..n][i].fi) == KeyOf(ops[n].fi);
        RunRemembers(db, ops[..n], i);
        assert firsts + [] == firsts;
      } else {
        assert (firsts + [ops[n]])[..|firsts|] == firsts;
      }
    }
  }

  // ---------------------------------------------------------------- the core machine

  datatype Core = Core(toolCalls: int, state: string, lastTool: string, stale: Option<int>, pid: int)

  datatype CoreDb = CoreDb(rows: map<string, Core>, folds: set<FoldKey>)

  function CoreRow(r: Row): Core { Core(r.toolCalls, r.state, r.lastTool, r.stale, r.pid) }

  function Project(db: Db): CoreDb { CoreDb(map sid | sid in db.rows :: CoreRow(db.rows[sid]), db.folds) }

  const NEW_CORE := Core(0, IDLE, "", None, 0)

  function BaseCore(c: CoreDb, sid: string): Core { if sid in c.rows then c.rows[sid] else NEW_CORE }

  function CoreFold(r: Core, fi: FoldInput, f: Folded, now: int): Core {
    Core(r.toolCalls + (if f.toolCall then 1 else 0), f.next, Pick(if f.toolCall then fi.tool else "", r.lastTool),
         if f.ended then Some(now) else r.stale, PickNum(fi.pid, r.pid))
  }

  function CoreApply(c: CoreDb, op: Op): CoreDb
    requires !op.Clean?
  {
    match op
    case Fold(fi, host, now) =>
      if KeyOf(fi) in c.folds then c
      else
        var f := FoldState(if fi.sid in c.rows then c.rows[fi.sid].state else "", fi.event, fi.ask);
        CoreDb(c.rows[fi.sid := CoreFold(BaseCore(c, fi.sid), fi, f, now)], c.folds + {KeyOf(fi)})
    case Enrich(sid, host, e, now) => c.(rows := c.rows[sid := BaseCore(c, sid)])
    case File(sf, title, host, now) =>
      var r := BaseCore(c, sf.sid);
      var folded := exists f :: f in c.folds && f.sid == sf.sid;
      c.(rows := c.rows[sf.sid := r.(state := if folded then r.state else Pick(sf.state, r.state), pid := PickNum(sf.pid, r.pid))])
    case Sweep(now, live) =>
      c.(rows := map sid | sid in c.rows ::
           var r := c.rows[sid];
           if r.pid != 0 && r.state != ENDED && r.stale.None? && r.pid !in live then r.(stale := Some(now)) else r)
  }

  function CoreRun(c: CoreDb, ops: seq<Op>): CoreDb
    requires NoPrune(ops)
  {
    if ops == [] then c else CoreApply(CoreRun(c, ops[..|ops| - 1]), ops[|ops| - 1])
  }

  lemma ProjectPut(db: Db, sid: string, r: Row)
    ensures Project(db.(rows := db.rows[sid := r])).rows == Project(db).rows[sid := CoreRow(r)]
  {}

  lemma FoldRefines(db: Db, fi: FoldInput, host: string, now: int)
    requires KeyOf(fi) !in db.folds
    ensures Project(ApplyFold(db, fi, host, now)) == CoreApply(Project(db), Fold(fi, host, now))
  {
    ProjectPut(db, fi.sid, ApplyFold(db, fi, host, now).rows[fi.sid]);
  }

  lemma FileRefines(db: Db, sf: StateFile, title: string, host: string, now: int)
    ensures Project(ApplyStateFile(db, sf, title, host, now)) == CoreApply(Project(db), File(sf, title, host, now))
  {
    assert HasFold(db, sf.sid) <==> exists f :: f in Project(db).folds && f.sid == sf.sid;
    ProjectPut(db, sf.sid, ApplyStateFile(db, sf, title, host, now).rows[sf.sid]);
  }

  /** The core columns move on their own: no other column ever reaches them. */
  lemma CoreRefines(db: Db, op: Op)
    requires !op.Clean?
    ensures Project(Apply(db, op)) == CoreApply(Project(db), op)
  {
    match op {
      case Fold(fi, host, now) => if KeyOf(fi) !in db.folds { FoldRefines(db, fi, host, now); }
      case Enrich(sid, host, e, now) => ProjectPut(db, sid, Apply(db, op).rows[sid]);
      case File(sf, title, host, now) => FileRefines(db, sf, title, host, now);
      case Sweep(now, live) =>
    }
  }

  lemma {:induction false} CoreRefinesRun(db: Db, ops: seq<Op>)
    requires NoPrune(ops)
    ensures Project(Run(db, ops)) == CoreRun(Project(db), ops)
    decreases ops
  {
    if ops != [] {
      var n := |ops| - 1;
      CoreRefinesRun(db, ops[..n]);
      CoreRefines(Run(db, ops[..n]), ops[n]);
    }
  }

  lemma {:induction false} CoreRunConcat(c: CoreDb, a: seq<Op>, b: seq<Op>)
    requires NoPrune(a) && NoPrune(b)
    ensures NoPrune(a + b) && CoreRun(c, a + b) == CoreRun(CoreRun(c, a), b)
    decreases b
  {
    if b == [] {
      assert a + b == a;
    } else {
      var n := |b| - 1;
      CoreRunConcat(c, a, b[..n]);
      assert (a + b)[..|a + b| - 1] == a + b[..n];
    }
  }

  // ---------------------------------------------------------------- transcript lines

  /** A transcript line that the core has already taken in. */
  predicate Absorbed(c: CoreDb, op: Op) {
    match op
    case Enrich(sid, _, _, _) => sid in c.rows
    case Fold(fi, _, _) => KeyOf(fi) in c.folds
    case _ => false
  }

  lemma AbsorbedIsStill(c: CoreDb, op: Op)
    requires Absorbed(c, op)
    ensures CoreApply(c, op) == c
  {
    if op.Enrich? {
      assert c.rows[op.sid := c.rows[op.sid]] == c.rows;
    }
  }

  lemma {:induction false} AbsorbedRunIsStill(c: CoreDb, ops: seq<Op>)
    requires forall i :: 0 <= i < |ops| ==> Absorbed(c, ops[i])
    ensures NoPrune(ops) && CoreRun(c, ops) == c
    decreases ops
  {
    if ops != [] {
      var n := |ops| - 1;
      AbsorbedRunIsStill(c, ops[..n]);
      AbsorbedIsStill(c, ops[n]);
    }
  }

  /** Two calls that the dedup set and the row's existence cannot tell apart. */
  predicate Again(op: Op, op': Op) {
    || (op.Enrich? && op'.Enrich? && op.sid == op'.sid)
    || (op.Fold? && op'.Fold? && KeyOf(op.fi) == KeyOf(op'.fi))
  }

  lemma CoreGrows(c: CoreDb, op: Op)
    requires !op.Clean?
    ensures c.folds <= CoreApply(c, op).folds && c.rows.Keys <= CoreApply(c, op).rows.Keys
  {}

  lemma {:induction false} RunAbsorbs(c: CoreDb, ops: seq<Op>, i: nat, op: Op)
    requires NoPrune(ops) && i < |ops| && Again(ops[i], op)
    ensures Absorbed(CoreRun(c, ops), op)
    decreases ops
  {
    var n := |ops| - 1;
    CoreGrows(CoreRun(c, ops[..n]), ops[n]);
    if i < n {
      RunAbsorbs(c, ops[..n], i, op);
    }
  }

  /** Every call of `again` repeats one of `ops`. */
  ghost predicate ReReads(ops: seq<Op>, again: seq<Op>) {
    forall j :: 0 <= j < |again| ==> exists i :: 0 <= i < |ops| && Again(ops[i], again[j])
  }

  /** Re-reading lines already read, at any later moment of a prune-free run, never shows in the core columns. */
  lemma ReReadsVanish(db: Db, ops: seq<Op>, again: seq<Op>, later: seq<Op>)
    requires NoPrune(ops) && NoPrune(again) && NoPrune(later) && ReReads(ops, again)
    ensures Project(Run(db, ops + again + later)) == Project(Run(db, ops + later))
  {
    var c := CoreRun(Project(db), ops);
    forall j | 0 <= j < |again| ensures Absorbed(c, again[j]) {
      var i :| 0 <= i < |ops| && Again(ops[i], again[j]);
      RunAbsorbs(Project(db), ops, i, again[j]);
    }
    AbsorbedRunIsStill(c, again);
    CoreRunConcat(Project(db), ops, again);
    CoreRunConcat(Project(db), ops + again, later);
    CoreRunConcat(Project(db), ops, later);
    CoreRefinesRun(db, ops + again + later);
    CoreRefinesRun(db, ops + later);
  }

  // ---------------------------------------------------------------- one line

  function LineKey(rec: Record, nowText: string): FoldKey { FoldKey(rec.sid, PreToolUse, Stamped(rec.ts, nowText)) }

  lemma {:induction false} ToolOpsShape(rec: Record, tools: seq<string>, host: string, now: int, nowText: string)
    ensures var ops := ToolOps(rec, tools, host, now, nowText);
            && |ops| == |tools| && NoPrune(ops)
            && forall i :: 0 <= i < |ops| ==> ops[i] == Fold(ToolFold(rec, tools[i], nowText), host, now)
    decreases tools
  {
    if tools != [] {
      ToolOpsShape(rec, tools[..|tools| - 1], host, now, nowText);
    }
  }

  /** However many tool_use blocks a record has, they share one timestamp and count once, for the first block. */
  lemma {:induction false} BlocksCountOnce(c: CoreDb, rec: Record, tools: seq<string>, host: string, now: int, nowText: string)
    requires tools != [] && LineKey(rec, nowText) !in c.folds && rec.sid in c.rows
    requires NoPrune(ToolOps(rec, tools, host, now, nowText))
    ensures var r := c.rows[rec.sid];
            CoreRun(c, ToolOps(rec, tools, host, now, nowText)) ==
            CoreDb(c.rows[rec.sid := r.(toolCalls := r.toolCalls + 1, state := WORKING, lastTool := Pick(tools[0], r.lastTool))],
                   c.folds + {LineKey(rec, nowText)})
    decreases tools
  {
    var n := |tools| - 1;
    var ops := ToolOps(rec, tools, host, now, nowText);
    ToolOpsShape(rec, tools, host, now, nowText);
    assert ops[..n] == ToolOps(rec, tools[..n], host, now, nowText);
    if n > 0 {
      BlocksCountOnce(c, rec, tools[..n], host, now, nowText);
      AbsorbedIsStill(CoreRun(c, ops[..n]), ops[n]);
    } else {
      assert CoreRun(c, ops[..0]) == c;
    }
  }

  /**
   * When a line moves the core of a session that has a row: exactly when it holds a tool_use block
   * whose dedup key is new. A line without a timestamp is stamped with the clock, so a re-read of it
   * has a new key each time.
   */
  lemma LineMovesCoreExactly(db: Db, rec: Record, host: string, now: int, nowText: string)
    requires rec.sid in db.rows && rec.sid != ""
    ensures Project(Run(db, LineOps(Some(rec), host, now, nowText))).rows != Project(db).rows <==>
            rec.tools != [] && LineKey(rec, nowText) !in db.folds
  {
    var c := Project(db);
    var enrich := [Enrich(rec.sid, host, rec.e, now)];
    var tools := ToolOps(rec, rec.tools, host, now, nowText);
    ToolOpsShape(rec, rec.tools, host, now, nowText);
    AbsorbedRunIsStill(c, enrich);
    CoreRunConcat(c, enrich, tools);
    CoreRefinesRun(db, enrich + tools);
    if rec.tools != [] && LineKey(rec, nowText) !in c.folds {
      BlocksCountOnce(c, rec, rec.tools, host, now, nowText);
      assert CoreRun(c, tools).rows[rec.sid].toolCalls != c.rows[rec.sid].toolCalls;
    } else {
      AbsorbedRunIsStill(c, tools);
    }
  }

  /** The failing family is real: one line without a timestamp, read twice, counts two tool calls. */
  lemma UnstampedLineCountsTwice()
    ensures var rec := Record("s", "", Enrichment("", "", "", "", 0, 0), ["Bash"]);
            var db := Run(EMPTY, LineOps(Some(rec), "h", 1, "t1") + LineOps(Some(rec), "h", 2, "t2"));
            "s" in db.rows && db.rows["s"].toolCalls == 2
  {
    var rec := Record("s", "", Enrichment("", "", "", "", 0, 0), ["Bash"]);
    var db1 := Run(EMPTY, LineOps(Some(rec), "h", 1, "t1"));
    RunConcat(EMPTY, LineOps(Some(rec), "h", 1, "t1"), LineOps(Some(rec), "h", 2, "t2"));
    OneBlockLine(EMPTY, rec, "h", 1, "t1");
    OneBlockLine(db1, rec, "h", 2, "t2");
    assert "t1" != "t2";
  }

  lemma OneBlockLine(db: Db, rec: Record, host: string, now: int, nowText: string)
    requires rec.sid != "" && |rec.tools| == 1 && LineKey(rec, nowText) !in db.folds
    ensures var db' := Run(db, LineOps(Some(rec), host, now, nowText));
            && rec.sid in db'.rows
            && db'.rows[rec.sid].toolCalls == (if rec.sid in db.rows then db.rows[rec.sid].toolCalls else 0) + 1
            && db'.folds == db.folds + {LineKey(rec, nowText)}
  {
    var e, f := Enrich(rec.sid, host, rec.e, now), Fold(ToolFold(rec, rec.tools[0], nowText), host, now);
    OneBlockOps(rec, host, now, nowText);
    RunTwo(db, e, f);
  }

  lemma OneBlockOps(rec: Record, host: string, now: int, nowText: string)
    requires rec.sid != "" && |rec.tools| == 1
    ensures LineOps(Some(rec), host, now, nowText) ==
            [Enrich(rec.sid, host, rec.e, now), Fold(ToolFold(rec, rec.tools[0], nowText), host, now)]
  {
    ToolOpsShape(rec, rec.tools, host, now, nowText);
  }

  lemma RunTwo(db: Db, a: Op, b: Op)
    ensures Run(db, [a, b]) == Apply(Apply(db, a), b)
  {
    assert [a, b][..1] == [a] && [a][..0] == [];
    assert Run(db, [a]) == Apply(Run(db, []), a);
  }
}
