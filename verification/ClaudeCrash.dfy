/**
 * What a crash of the transcript tail can do (plugins/claude/tail.go:67-98 and 126-146): a scan can die between
 * any two of its store calls, inside a line or between lines, and before it saves the cursor.
 */
module ClaudeCrash {
  import opened Options
  import opened ClaudeStore
  import opened ClaudeReplay
  import opened ClaudeTail

  // ---------------------------------------------------------------- scans

  /** How the plugin reads a line, and what it calls the box. */
  datatype Reader = Reader(host: string, cap: nat, decode: seq<Byte> -> Option<Record>, show: int -> string)

  /** That many lines are done, and that many store calls of the next. */
  datatype Point = Point(line: nat, calls: nat)

  /**
   * One scan: the length it saw, the clock at each line, where it died before saving the cursor, if it did,
   * which store calls of which line failed, and which folds got no further than their dedup row, by an error or
   * by the death itself. A cursor that fails to be saved is a death after the last line.
   */
  datatype Scan = Scan(len: nat, clock: nat -> int, crash: Option<Point>, failed: set<Point>, half: set<Point>)

  datatype Tail = Tail(cursor: nat, db: Db)

  /** The store calls of foldLine for line `i` of a scan that begins at line `lo`. */
  function CallsOf(rd: Reader, lines: seq<seq<Byte>>, lo: nat, i: nat, s: Scan): seq<Op>
    requires lo <= i < |lines|
  {
    LineOps(rd.decode(lines[i]), rd.host, s.clock(i - lo), rd.show(s.clock(i - lo)))
  }

  /** applyFold cut between its two statements: the dedup row is there, the session's is not touched. */
  function Half(db: Db, op: Op): Db { if op.Fold? then db.(folds := db.folds + {KeyOf(op.fi)}) else db }

  /** The database after lines `lo` up to `i` and the first `j` calls of line `i`; a failed call is skipped. */
  function ScanDb(rd: Reader, db: Db, lines: seq<seq<Byte>>, lo: nat, i: nat, j: nat, s: Scan): Db
    requires lo <= i <= |lines| && (j > 0 ==> i < |lines| && j <= |CallsOf(rd, lines, lo, i, s)|)
    decreases i, j
  {
    if j > 0 then
      var before := ScanDb(rd, db, lines, lo, i, j - 1, s);
      var op := CallsOf(rd, lines, lo, i, s)[j - 1];
      if Point(i - lo, j - 1) in s.failed then before
      else if Point(i - lo, j - 1) in s.half then Half(before, op)
      else Apply(before, op)
    else if i == lo then db
    else ScanDb(rd, db, lines, lo, i - 1, |CallsOf(rd, lines, lo, i - 1, s)|, s)
  }

  predicate Dies(lo: nat, hi: nat, crash: Option<Point>) { crash.Some? && lo + crash.value.line < hi }

  function Least(a: nat, b: nat): nat { if a <= b then a else b }

  /** A scan of lines `lo` up to `hi`, or as far as it gets. */
  function StepDb(rd: Reader, db: Db, lines: seq<seq<Byte>>, lo: nat, hi: nat, s: Scan): Db
    requires lo <= hi <= |lines|
  {
    if Dies(lo, hi, s.crash) then
      var Point(m, j) := s.crash.value;
      ScanDb(rd, db, lines, lo, lo + m, Least(j, |CallsOf(rd, lines, lo, lo + m, s)|), s)
    else ScanDb(rd, db, lines, lo, hi, 0, s)
  }

  function Step(rd: Reader, data: seq<Byte>, t: Tail, s: Scan): Tail
    requires s.len <= |data|
  {
    if s.len <= t.cursor then t
    else
      var seen := data[..s.len];
      var lines := Lines(seen, t.cursor, rd.cap);
      Tail(if s.crash.Some? then t.cursor else End(seen, t.cursor), StepDb(rd, t.db, lines, 0, |lines|, s))
  }

  predicate Within(scans: seq<Scan>, len: nat) { forall i :: 0 <= i < |scans| ==> scans[i].len <= len }

  function RunTail(rd: Reader, data: seq<Byte>, db: Db, scans: seq<Scan>): Tail
    requires Within(scans, |data|)
  {
    if scans == [] then Tail(0, db)
    else Step(rd, data, RunTail(rd, data, db, scans[..|scans| - 1]), scans[|scans| - 1])
  }

  predicate NoFailure(s: Scan) { s.failed == {} && s.half == {} }

  /** A scan whose store calls all succeed, up to where it dies. */
  function Sound(clock: nat -> int, crash: Option<Point>): (s: Scan)
    ensures NoFailure(s) && s.crash == crash
  {
    Scan(0, clock, crash, {}, {})
  }

  /** One read of these lines from the start that dies at a point, or not at all. */
  function Read(rd: Reader, db: Db, lines: seq<seq<Byte>>, clock: nat -> int, crash: Option<Point>): Db {
    StepDb(rd, db, lines, 0, |lines|, Sound(clock, crash))
  }

  predicate NoFailures(scans: seq<Scan>) { forall i :: 0 <= i < |scans| ==> NoFailure(scans[i]) }

  // ---------------------------------------------------------------- the cursor

  lemma {:induction false} ScanOfSegment(rd: Reader, db: Db, all: seq<seq<Byte>>, part: seq<seq<Byte>>, lo: nat,
                                         i: nat, j: nat, s: Scan)
    requires lo + |part| <= |all| && part == all[lo..lo + |part|]
    requires i <= |part| && (j > 0 ==> i < |part| && j <= |CallsOf(rd, part, 0, i, s)|)
    ensures ScanDb(rd, db, part, 0, i, j, s) == ScanDb(rd, db, all, lo, lo + i, j, s)
    decreases i, j
  {
    if j > 0 {
      ScanOfSegment(rd, db, all, part, lo, i, j - 1, s);
    } else if i > 0 {
      ScanOfSegment(rd, db, all, part, lo, i - 1, |CallsOf(rd, part, 0, i - 1, s)|, s);
    }
  }

  lemma StepOfSegment(rd: Reader, db: Db, all: seq<seq<Byte>>, part: seq<seq<Byte>>, lo: nat, hi: nat, s: Scan)
    requires lo <= hi <= |all| && part == all[lo..hi]
    ensures StepDb(rd, db, part, 0, |part|, s) == StepDb(rd, db, all, lo, hi, s)
  {
    if Dies(lo, hi, s.crash) {
      var Point(m, j) := s.crash.value;
      var calls := |CallsOf(rd, part, 0, m, s)|;
      assert calls == |CallsOf(rd, all, lo, lo + m, s)|;
      ScanOfSegment(rd, db, all, part, lo, m, Least(j, calls), s);
    } else {
      ScanOfSegment(rd, db, all, part, lo, |part|, 0, s);
    }
  }

  /** Where a scan's cursor and lines lie among the lines of the file. */
  lemma CursorStep(rd: Reader, data: seq<Byte>, t: Tail, s: Scan)
    requires Boundary(data, t.cursor) && t.cursor < s.len <= |data|
    ensures var all, lo, hi := Lines(data, 0, rd.cap), CountBefore(data, t.cursor, rd.cap), CountBefore(data, s.len, rd.cap);
            lo <= hi <= |all| && Step(rd, data, t, s).db == StepDb(rd, t.db, all, lo, hi, s)
    ensures Boundary(data, Step(rd, data, t, s).cursor)
    ensures CountBefore(data, Step(rd, data, t, s).cursor, rd.cap) ==
            CountBefore(data, if s.crash.Some? then t.cursor else s.len, rd.cap)
  {
    SegmentOf(data, t.cursor, s.len, rd.cap);
    StepOfSegment(rd, t.db, Lines(data, 0, rd.cap), Lines(data[..s.len], t.cursor, rd.cap),
                  CountBefore(data, t.cursor, rd.cap), CountBefore(data, s.len, rd.cap), s);
  }

  lemma {:induction false} CursorOk(rd: Reader, data: seq<Byte>, db: Db, scans: seq<Scan>, len: nat)
    requires Within(scans, len) && len <= |data|
    ensures var t := RunTail(rd, data, db, scans);
            Boundary(data, t.cursor) && t.cursor <= len && CountBefore(data, t.cursor, rd.cap) <= CountBefore(data, len, rd.cap)
    decreases scans
  {
    if scans == [] {
      assert data[..0] == [];
    } else {
      var n := |scans| - 1;
      CursorOk(rd, data, db, scans[..n], len);
      var t := RunTail(rd, data, db, scans[..n]);
      if t.cursor < scans[n].len {
        CursorStep(rd, data, t, scans[n]);
      }
    }
    CountGrows(data, RunTail(rd, data, db, scans).cursor, len, rd.cap);
  }

  /** A scan that saves the cursor at a length no scan went beyond has seen the whole of that length. */
  lemma CursorAtEnd(rd: Reader, data: seq<Byte>, db: Db, scans: seq<Scan>, len: nat)
    requires scans != [] && Within(scans, len) && len <= |data|
    requires scans[|scans| - 1].crash.None? && scans[|scans| - 1].len == len
    ensures var t := RunTail(rd, data, db, scans);
            t.cursor == End(data[..len], 0) && CountBefore(data, t.cursor, rd.cap) == CountBefore(data, len, rd.cap)
  {
    var n := |scans| - 1;
    CursorOk(rd, data, db, scans[..n], len);
    var t0 := RunTail(rd, data, db, scans[..n]);
    SegmentOf(data, t0.cursor, len, rd.cap);
    EndOn(data[..len], data[..t0.cursor], 0);
    assert data[..t0.cursor] <= data[..len];
  }

  // ---------------------------------------------------------------- the core columns, part by part

  /** Every record with a tool_use block carries a timestamp. */
  predicate StampedRecord(line: Option<Record>) { line.Some? && line.value.tools != [] ==> line.value.ts != "" }

  ghost predicate AllStamped(rd: Reader, lines: seq<seq<Byte>>) {
    forall i :: 0 <= i < |lines| ==> StampedRecord(rd.decode(lines[i]))
  }

  /** A line the tail folds: it decodes and names a session. */
  predicate Real(line: Option<Record>) { line.Some? && line.value.sid != "" }

  function CoreEnrich(c: CoreDb, sid: string): CoreDb { c.(rows := c.rows[sid := BaseCore(c, sid)]) }

  function ToolKey(rec: Record): FoldKey { FoldKey(rec.sid, PreToolUse, rec.ts) }

  /** However many tool_use blocks, one tool call, unless its key is known. */
  function CoreTools(c: CoreDb, rec: Record): CoreDb {
    var r := BaseCore(c, rec.sid);
    if rec.tools == [] || ToolKey(rec) in c.folds then c
    else CoreDb(c.rows[rec.sid := r.(toolCalls := r.toolCalls + 1, state := WORKING, lastTool := Pick(rec.tools[0], r.lastTool))],
                c.folds + {ToolKey(rec)})
  }

  /** A stamped line has two parts, its enrichment and its tool_use blocks: no clock and no host in either. */
  function CorePart(c: CoreDb, line: Option<Record>, tools: bool): CoreDb {
    if !Real(line) then c else if tools then CoreTools(c, line.value) else CoreEnrich(c, line.value.sid)
  }

  /** Parts `a` up to `b` of the lines; line i has parts 2i and 2i + 1. */
  function CoreParts(rd: Reader, c: CoreDb, all: seq<seq<Byte>>, a: nat, b: nat): CoreDb
    requires b <= 2 * |all|
    decreases b
  {
    if b <= a then c else CorePart(CoreParts(rd, c, all, a, b - 1), rd.decode(all[(b - 1) / 2]), (b - 1) % 2 == 1)
  }

  lemma {:induction false} CorePartsConcat(rd: Reader, c: CoreDb, all: seq<seq<Byte>>, a: nat, m: nat, b: nat)
    requires a <= m <= b <= 2 * |all|
    ensures CoreParts(rd, CoreParts(rd, c, all, a, m), all, m, b) == CoreParts(rd, c, all, a, b)
    decreases b
  {
    if m < b {
      CorePartsConcat(rd, c, all, a, m, b - 1);
    }
  }

  /** The core has taken this part in. */
  predicate Known(c: CoreDb, line: Option<Record>, tools: bool) {
    Real(line) ==> if tools then (line.value.tools != [] ==> ToolKey(line.value) in c.folds) else line.value.sid in c.rows
  }

  lemma PartKnows(c: CoreDb, line: Option<Record>, tools: bool, other: Option<Record>, of: bool)
    ensures Known(CorePart(c, line, tools), line, tools)
    ensures Known(c, other, of) ==> Known(CorePart(c, line, tools), other, of)
    ensures Known(c, line, tools) ==> CorePart(c, line, tools) == c
  {
    if Real(line) && line.value.sid in c.rows {
      assert c.rows[line.value.sid := c.rows[line.value.sid]] == c.rows;
    }
  }

  lemma {:induction false} PartsKnow(rd: Reader, c: CoreDb, all: seq<seq<Byte>>, b: nat, p: nat)
    requires p < b <= 2 * |all|
    ensures Known(CoreParts(rd, c, all, 0, b), rd.decode(all[p / 2]), p % 2 == 1)
    decreases b
  {
    var last := b - 1;
    PartKnows(CoreParts(rd, c, all, 0, last), rd.decode(all[last / 2]), last % 2 == 1, rd.decode(all[p / 2]), p % 2 == 1);
    if p < last {
      PartsKnow(rd, c, all, last, p);
    }
  }

  lemma {:induction false} KnownVanish(rd: Reader, c: CoreDb, all: seq<seq<Byte>>, a: nat, b: nat)
    requires b <= 2 * |all|
    requires forall p :: a <= p < b ==> Known(c, rd.decode(all[p / 2]), p % 2 == 1)
    ensures CoreParts(rd, c, all, a, b) == c
    decreases b
  {
    if a < b {
      KnownVanish(rd, c, all, a, b - 1);
      PartKnows(c, rd.decode(all[(b - 1) / 2]), (b - 1) % 2 == 1, None, false);
    }
  }

  /** Reading parts again, and then possibly further, is reading as far as either went. */
  lemma OverlapVanishes(rd: Reader, c: CoreDb, all: seq<seq<Byte>>, lo: nat, hi: nat, high: nat)
    requires lo <= high <= 2 * |all| && lo <= hi <= 2 * |all|
    ensures CoreParts(rd, CoreParts(rd, c, all, 0, high), all, lo, hi) == CoreParts(rd, c, all, 0, if hi <= high then high else hi)
  {
    var c1 := CoreParts(rd, c, all, 0, high);
    var mid := if hi <= high then hi else high;
    forall p | lo <= p < mid ensures Known(c1, rd.decode(all[p / 2]), p % 2 == 1) {
      PartsKnow(rd, c, all, high, p);
    }
    KnownVanish(rd, c1, all, lo, mid);
    CorePartsConcat(rd, c1, all, lo, mid, hi);
    if high < hi {
      CorePartsConcat(rd, c, all, 0, high, hi);
    }
  }

  // ---------------------------------------------------------------- what a line's calls do to the core

  lemma EnrichCore(c: CoreDb, sid: string, host: string, e: Enrichment, now: int)
    ensures NoPrune([Enrich(sid, host, e, now)]) && CoreRun(c, [Enrich(sid, host, e, now)]) == CoreEnrich(c, sid)
  {
    var enrich := [Enrich(sid, host, e, now)];
    assert enrich[..0] == [];
    assert CoreRun(c, enrich[..0]) == c;
  }

  lemma ToolsCore(c: CoreDb, rec: Record, host: string, now: int, nowText: string)
    requires rec.sid in c.rows && StampedRecord(Some(rec))
    ensures var ops := ToolOps(rec, rec.tools, host, now, nowText); NoPrune(ops) && CoreRun(c, ops) == CoreTools(c, rec)
  {
    ToolOpsShape(rec, rec.tools, host, now, nowText);
    if rec.tools != [] && ToolKey(rec) !in c.folds {
      BlocksCountOnce(c, rec, rec.tools, host, now, nowText);
    } else {
      AbsorbedRunIsStill(c, ToolOps(rec, rec.tools, host, now, nowText));
    }
  }

  lemma LineCore(c: CoreDb, rec: Record, host: string, now: int, nowText: string)
    requires rec.sid != "" && StampedRecord(Some(rec))
    ensures var ops := LineOps(Some(rec), host, now, nowText);
            NoPrune(ops) && CoreRun(c, ops) == CoreTools(CoreEnrich(c, rec.sid), rec)
  {
    EnrichCore(c, rec.sid, host, rec.e, now);
    ToolsCore(CoreEnrich(c, rec.sid), rec, host, now, nowText);
    CoreRunConcat(c, [Enrich(rec.sid, host, rec.e, now)], ToolOps(rec, rec.tools, host, now, nowText));
  }

  /** The first calls of a line are the calls of the line with fewer blocks. */
  lemma FirstCalls(rec: Record, k: nat, host: string, now: int, nowText: string)
    requires rec.sid != "" && k <= |rec.tools|
    ensures |LineOps(Some(rec), host, now, nowText)| == |rec.tools| + 1
    ensures LineOps(Some(rec), host, now, nowText)[..k + 1] == LineOps(Some(rec.(tools := rec.tools[..k])), host, now, nowText)
  {
    ToolOpsShape(rec, rec.tools, host, now, nowText);
    ToolOpsShape(rec.(tools := rec.tools[..k]), rec.tools[..k], host, now, nowText);
  }

  /** Two calls or more, and the line is complete in the core. */
  function PartsDone(calls: nat): nat { if calls < 2 then calls else 2 }

  /** `parts` parts of one line. */
  function SomeParts(c: CoreDb, line: Option<Record>, parts: nat): CoreDb {
    if parts == 0 then c else if parts == 1 then CorePart(c, line, false) else CorePart(CorePart(c, line, false), line, true)
  }

  lemma FewerBlocks(c: CoreDb, rec: Record, k: nat)
    requires k <= |rec.tools|
    ensures CoreTools(c, rec.(tools := rec.tools[..k])) == if k == 0 then c else CoreTools(c, rec)
  {}

  lemma RealCallsCore(c: CoreDb, rec: Record, k: nat, host: string, now: int, nowText: string)
    requires rec.sid != "" && StampedRecord(Some(rec)) && k <= |rec.tools|
    ensures var ops := LineOps(Some(rec), host, now, nowText);
            k < |ops| && NoPrune(ops[..k + 1]) && CoreRun(c, ops[..k + 1]) == SomeParts(c, Some(rec), PartsDone(k + 1))
  {
    FirstCalls(rec, k, host, now, nowText);
    LineCore(c, rec.(tools := rec.tools[..k]), host, now, nowText);
    FewerBlocks(CoreEnrich(c, rec.sid), rec, k);
  }

  lemma {:induction false} LineRun(rd: Reader, db: Db, all: seq<seq<Byte>>, lo: nat, i: nat, j: nat, s: Scan, ops: seq<Op>)
    requires lo <= i < |all| && ops == CallsOf(rd, all, lo, i, s) && j <= |ops| && NoFailure(s)
    ensures ScanDb(rd, db, all, lo, i, j, s) == Run(ScanDb(rd, db, all, lo, i, 0, s), ops[..j])
    decreases j
  {
    if j > 0 {
      LineRun(rd, db, all, lo, i, j - 1, s, ops);
      assert ops[..j][..j - 1] == ops[..j - 1];
    }
  }

  lemma CallsCore(before: Db, line: Option<Record>, host: string, now: int, nowText: string, j: nat, ops: seq<Op>)
    requires StampedRecord(line) && ops == LineOps(line, host, now, nowText) && j <= |ops|
    ensures Project(Run(before, ops[..j])) == SomeParts(Project(before), line, PartsDone(j))
  {
    if j > 0 {
      FirstCalls(line.value, 0, host, now, nowText);
      RealCallsCore(Project(before), line.value, j - 1, host, now, nowText);
      CoreRefinesRun(before, ops[..j]);
    }
  }

  /** After all the calls of a line, its further parts change nothing. */
  lemma AllCallsDone(c: CoreDb, line: Option<Record>, host: string, now: int, nowText: string, parts: nat)
    requires PartsDone(|LineOps(line, host, now, nowText)|) <= parts <= 2
    ensures SomeParts(c, line, PartsDone(|LineOps(line, host, now, nowText)|)) == SomeParts(c, line, parts)
  {
    if Real(line) {
      FirstCalls(line.value, 0, host, now, nowText);
    }
  }

  /** The parts of a line, as parts of all of them. */
  lemma PartsOfLine(rd: Reader, c: CoreDb, all: seq<seq<Byte>>, a: nat, i: nat, parts: nat)
    requires a <= 2 * i && i < |all| && parts <= 2
    ensures CoreParts(rd, c, all, a, 2 * i + parts) == SomeParts(CoreParts(rd, c, all, a, 2 * i), rd.decode(all[i]), parts)
  {
    if parts == 2 {
      PartsOfLine(rd, c, all, a, i, 1);
      assert (2 * i + 1) / 2 == i && (2 * i + 1) % 2 == 1;
    } else if parts == 1 {
      assert (2 * i) / 2 == i && (2 * i) % 2 == 0;
    }
  }

  /** What the first `j` calls of a line do, or all of them. */
  lemma LineParts(before: Db, after: Db, line: Option<Record>, host: string, now: int, nowText: string, j: nat,
                  ops: seq<Op>, parts: nat)
    requires StampedRecord(line) && ops == LineOps(line, host, now, nowText) && j <= |ops| && after == Run(before, ops[..j])
    requires parts == PartsDone(j) || (j == |ops| && PartsDone(j) <= parts <= 2)
    ensures Project(after) == SomeParts(Project(before), line, parts)
  {
    CallsCore(before, line, host, now, nowText, j, ops);
    if j == |ops| {
      AllCallsDone(Project(before), line, host, now, nowText, parts);
    }
  }

  /** The first `j` calls of line `i`, or all of them, take the core from part p = 2i to part b. */
  lemma LineMore(rd: Reader, c: CoreDb, db: Db, all: seq<seq<Byte>>, lo: nat, i: nat, j: nat, s: Scan, a: nat, p: nat, b: nat)
    requires lo <= i < |all| && AllStamped(rd, all) && NoFailure(s) && j <= |CallsOf(rd, all, lo, i, s)| && a <= p == 2 * i
    requires b == p + PartsDone(j) || (j == |CallsOf(rd, all, lo, i, s)| && p + PartsDone(j) <= b <= p + 2)
    requires Project(ScanDb(rd, db, all, lo, i, 0, s)) == CoreParts(rd, c, all, a, p)
    ensures Project(ScanDb(rd, db, all, lo, i, j, s)) == CoreParts(rd, c, all, a, b)
  {
    var ops := CallsOf(rd, all, lo, i, s);
    LineRun(rd, db, all, lo, i, j, s, ops);
    RunMore(rd, c, all, i, s.clock(i - lo), ops, j, a, p, b, ScanDb(rd, db, all, lo, i, 0, s), ScanDb(rd, db, all, lo, i, j, s));
  }

  lemma RunMore(rd: Reader, c: CoreDb, all: seq<seq<Byte>>, i: nat, now: int, ops: seq<Op>, j: nat, a: nat, p: nat,
                b: nat, before: Db, after: Db)
    requires i < |all| && StampedRecord(rd.decode(all[i])) && a <= p == 2 * i
    requires ops == LineOps(rd.decode(all[i]), rd.host, now, rd.show(now)) && j <= |ops| && after == Run(before, ops[..j])
    requires b == p + PartsDone(j) || (j == |ops| && p + PartsDone(j) <= b <= p + 2)
    requires Project(before) == CoreParts(rd, c, all, a, p)
    ensures Project(after) == CoreParts(rd, c, all, a, b)
  {
    LineParts(before, after, rd.decode(all[i]), rd.host, now, rd.show(now), j, ops, b - p);
    PartsOfLine(rd, c, all, a, i, b - p);
  }

  lemma {:induction false} ScanCore(rd: Reader, c: CoreDb, db: Db, all: seq<seq<Byte>>, lo: nat, i: nat, s: Scan, a: nat, b: nat)
    requires lo <= i <= |all| && AllStamped(rd, all) && NoFailure(s) && c == Project(db) && a == 2 * lo && b == 2 * i
    ensures Project(ScanDb(rd, db, all, lo, i, 0, s)) == CoreParts(rd, c, all, a, b)
    decreases i
  {
    if lo < i {
      ScanCore(rd, c, db, all, lo, i - 1, s, a, b - 2);
      LineMore(rd, c, db, all, lo, i - 1, |CallsOf(rd, all, lo, i - 1, s)|, s, a, b - 2, b);
    }
  }

  /** The part a scan from line `lo` to line `hi` gets to. */
  function Reached(lo: nat, hi: nat, crash: Option<Point>): nat {
    if Dies(lo, hi, crash) then 2 * (lo + crash.value.line) + PartsDone(crash.value.calls) else 2 * hi
  }

  lemma StoppedCore(rd: Reader, c: CoreDb, db: Db, all: seq<seq<Byte>>, lo: nat, i: nat, q: nat, j: nat, s: Scan, a: nat, b: nat)
    requires lo <= i < |all| && AllStamped(rd, all) && NoFailure(s) && c == Project(db)
    requires j == Least(q, |CallsOf(rd, all, lo, i, s)|) && a == 2 * lo && b == 2 * i + PartsDone(q)
    ensures Project(ScanDb(rd, db, all, lo, i, j, s)) == CoreParts(rd, c, all, a, b)
  {
    var p := 2 * i;
    ScanCore(rd, c, db, all, lo, i, s, a, p);
    LineMore(rd, c, db, all, lo, i, j, s, a, p, b);
  }

  lemma StepCore(rd: Reader, c: CoreDb, db: Db, all: seq<seq<Byte>>, lo: nat, hi: nat, s: Scan, a: nat, b: nat)
    requires lo <= hi <= |all| && AllStamped(rd, all) && NoFailure(s) && c == Project(db)
    requires a == 2 * lo && b == Reached(lo, hi, s.crash)
    ensures Project(StepDb(rd, db, all, lo, hi, s)) == CoreParts(rd, c, all, a, b)
  {
    if Dies(lo, hi, s.crash) {
      var Point(m, q) := s.crash.value;
      StoppedCore(rd, c, db, all, lo, lo + m, q, Least(q, |CallsOf(rd, all, lo, lo + m, s)|), s, a, b);
    } else {
      ScanCore(rd, c, db, all, lo, hi, s, a, b);
    }
  }

  // ---------------------------------------------------------------- whole runs

  /** The cursor is a boundary, and the core is that of reading the file's first `high` parts once. */
  ghost predicate TailOk(rd: Reader, data: seq<Byte>, db: Db, t: Tail, high: nat) {
    && Boundary(data, t.cursor)
    && 2 * CountBefore(data, t.cursor, rd.cap) <= high <= 2 * |Lines(data, 0, rd.cap)|
    && Project(t.db) == CoreParts(rd, Project(db), Lines(data, 0, rd.cap), 0, high)
  }

  /** The furthest part any scan has reached. */
  function High(rd: Reader, data: seq<Byte>, t: Tail, s: Scan, high: nat): nat
    requires s.len <= |data| && t.cursor <= |data|
  {
    if s.len <= t.cursor then high
    else
      var reached := Reached(CountBefore(data, t.cursor, rd.cap), CountBefore(data, s.len, rd.cap), s.crash);
      if reached <= high then high else reached
  }

  lemma StepTailOk(rd: Reader, data: seq<Byte>, db: Db, t: Tail, s: Scan, high: nat)
    requires TailOk(rd, data, db, t, high) && s.len <= |data| && AllStamped(rd, Lines(data, 0, rd.cap)) && NoFailure(s)
    ensures TailOk(rd, data, db, Step(rd, data, t, s), High(rd, data, t, s, high))
  {
    if t.cursor < s.len {
      var all, lo, hi := Lines(data, 0, rd.cap), CountBefore(data, t.cursor, rd.cap), CountBefore(data, s.len, rd.cap);
      CursorStep(rd, data, t, s);
      var reached := Reached(lo, hi, s.crash);
      StepCore(rd, Project(t.db), t.db, all, lo, hi, s, 2 * lo, reached);
      OverlapVanishes(rd, Project(db), all, 2 * lo, reached, high);
    }
  }

  function RunHigh(rd: Reader, data: seq<Byte>, db: Db, scans: seq<Scan>): nat
    requires Within(scans, |data|)
  {
    if scans == [] then 0
    else
      var n := |scans| - 1;
      var t := RunTail(rd, data, db, scans[..n]);
      if t.cursor <= |data| then High(rd, data, t, scans[n], RunHigh(rd, data, db, scans[..n])) else 0
  }

  lemma {:induction false} RunTailOk(rd: Reader, data: seq<Byte>, db: Db, scans: seq<Scan>)
    requires Within(scans, |data|) && AllStamped(rd, Lines(data, 0, rd.cap)) && NoFailures(scans)
    ensures TailOk(rd, data, db, RunTail(rd, data, db, scans), RunHigh(rd, data, db, scans))
    decreases scans
  {
    if scans == [] {
      assert data[..0] == [];
    } else {
      var n := |scans| - 1;
      RunTailOk(rd, data, db, scans[..n]);
      StepTailOk(rd, data, db, RunTail(rd, data, db, scans[..n]), scans[n], RunHigh(rd, data, db, scans[..n]));
    }
  }

  /**
   * Crash safety, end to end. Any scans of a growing file, any of which may die after any of its store calls
   * and before saving the cursor, leave the core columns of one read of the file that dies once; that read
   * gets at least past every line before the saved cursor.
   */
  lemma CrashesVanish(rd: Reader, data: seq<Byte>, db: Db, scans: seq<Scan>, clock: nat -> int)
    requires Within(scans, |data|) && AllStamped(rd, Lines(data, 0, rd.cap)) && NoFailures(scans)
    ensures var t, all, high := RunTail(rd, data, db, scans), Lines(data, 0, rd.cap), RunHigh(rd, data, db, scans);
            && Boundary(data, t.cursor)
            && CountBefore(data, t.cursor, rd.cap) <= high / 2 <= |all|
            && Project(t.db) == Project(Read(rd, db, all, clock, Some(Point(high / 2, high % 2))))
  {
    RunTailOk(rd, data, db, scans);
    ReadCore(rd, db, Lines(data, 0, rd.cap), RunHigh(rd, data, db, scans), clock);
  }

  lemma ReadCore(rd: Reader, db: Db, all: seq<seq<Byte>>, high: nat, clock: nat -> int)
    requires AllStamped(rd, all) && high <= 2 * |all|
    ensures Project(Read(rd, db, all, clock, Some(Point(high / 2, high % 2)))) == CoreParts(rd, Project(db), all, 0, high)
  {
    StepCore(rd, Project(db), db, all, 0, |all|, Sound(clock, Some(Point(high / 2, high % 2))), 0, high);
  }

  lemma BatchCore(rd: Reader, db: Db, all: seq<seq<Byte>>, lines: seq<seq<Byte>>, b: nat, clock: nat -> int)
    requires AllStamped(rd, all) && lines <= all && b == 2 * |lines|
    ensures Project(Read(rd, db, lines, clock, None)) == CoreParts(rd, Project(db), all, 0, b)
  {
    StepOfSegment(rd, db, all, lines, 0, |lines|, Sound(clock, None));
    StepCore(rd, Project(db), db, all, 0, |lines|, Sound(clock, None), 0, b);
  }

  lemma {:induction false} HighWithin(rd: Reader, data: seq<Byte>, db: Db, scans: seq<Scan>, len: nat)
    requires len <= |data| && Within(scans, len)
    ensures RunHigh(rd, data, db, scans) <= 2 * CountBefore(data, len, rd.cap)
    decreases scans
  {
    if scans != [] {
      var n := |scans| - 1;
      HighWithin(rd, data, db, scans[..n], len);
      CursorOk(rd, data, db, scans[..n], len);
      CountGrows(data, scans[n].len, len, rd.cap);
    }
  }

  /** When the last scan completes at a length no scan went beyond, the core is that of one batch read of that length. */
  lemma TailIsBatch(rd: Reader, data: seq<Byte>, db: Db, scans: seq<Scan>, len: nat, clock: nat -> int)
    requires scans != [] && Within(scans, len) && len <= |data|
    requires scans[|scans| - 1].crash.None? && scans[|scans| - 1].len == len
    requires AllStamped(rd, Lines(data, 0, rd.cap)) && NoFailures(scans)
    ensures var t, seen := RunTail(rd, data, db, scans), data[..len];
            t.cursor == End(seen, 0) && Project(t.db) == Project(Read(rd, db, Lines(seen, 0, rd.cap), clock, None))
  {
    CursorAtEnd(rd, data, db, scans, len);
    CoreAtEnd(rd, data, db, scans, len);
    ReadOn(data, data[..len], 0, rd.cap);
    BatchCore(rd, db, Lines(data, 0, rd.cap), Lines(data[..len], 0, rd.cap), RunHigh(rd, data, db, scans), clock);
  }

  lemma CoreAtEnd(rd: Reader, data: seq<Byte>, db: Db, scans: seq<Scan>, len: nat)
    requires scans != [] && Within(scans, len) && len <= |data|
    requires scans[|scans| - 1].crash.None? && scans[|scans| - 1].len == len
    requires AllStamped(rd, Lines(data, 0, rd.cap)) && NoFailures(scans)
    ensures var high := RunHigh(rd, data, db, scans);
            && high == 2 * |Lines(data[..len], 0, rd.cap)| <= 2 * |Lines(data, 0, rd.cap)|
            && Project(RunTail(rd, data, db, scans).db) == CoreParts(rd, Project(db), Lines(data, 0, rd.cap), 0, high)
  {
    RunTailOk(rd, data, db, scans);
    HighWithin(rd, data, db, scans, len);
    CursorAtEnd(rd, data, db, scans, len);
  }
}
