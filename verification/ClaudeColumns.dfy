/**
 * The columns a transcript line enriches (plugins/claude/tail.go:129-146 with plugins/claude/store.go:95-150): when
 * only the tail writes they end as in one batch read, and what a re-read does when other channels write too.
 */
module ClaudeColumns {
  import opened Options
  import opened ClaudeStore
  import opened ClaudeReplay
  import opened ClaudeTail
  import opened ClaudeCrash
  import ClaudeHistory

  // ---------------------------------------------------------------- last non-empty values

  const NOTHING := Enrichment("", "", "", "", 0, 0)

  /** `b` laid over `a`: each column takes the later value unless it is empty. */
  function Over(a: Enrichment, b: Enrichment): Enrichment {
    Enrichment(Pick(b.cwd, a.cwd), Pick(b.branch, a.branch), Pick(b.model, a.model), Pick(b.prUrl, a.prUrl),
               PickNum(b.issue, a.issue), PickNum(b.prNumber, a.prNumber))
  }

  /** Laying over groups either way, and laying the same twice is laying it once. */
  lemma OverLaws(a: Enrichment, b: Enrichment, c: Enrichment)
    ensures Over(Over(a, b), c) == Over(a, Over(b, c))
    ensures Over(Over(a, b), Over(b, c)) == Over(a, Over(b, c))
    ensures Over(a, NOTHING) == a && Over(NOTHING, a) == a && Over(a, a) == a
  {}

  /** What the enrichment columns of a session hold. */
  function Cols(db: Db, sid: string): Enrichment {
    if sid !in db.rows then NOTHING
    else
      var r := db.rows[sid];
      Enrichment(r.cwd, r.branch, r.model, r.prUrl, r.issue, r.prNumber)
  }

  /** What a line says about a session. */
  function Says(line: Option<Record>, sid: string): Enrichment {
    if Real(line) && line.value.sid == sid then line.value.e else NOTHING
  }

  /** The last non-empty values of lines `a` up to `b`. */
  function Sum(rd: Reader, all: seq<seq<Byte>>, a: nat, b: nat, sid: string): Enrichment
    requires b <= |all|
    decreases b
  {
    if b <= a then NOTHING else Over(Sum(rd, all, a, b - 1, sid), Says(rd.decode(all[b - 1]), sid))
  }

  lemma {:induction false} SumSplit(rd: Reader, all: seq<seq<Byte>>, a: nat, m: nat, b: nat, sid: string)
    requires a <= m <= b <= |all|
    ensures Sum(rd, all, a, b, sid) == Over(Sum(rd, all, a, m, sid), Sum(rd, all, m, b, sid))
    decreases b
  {
    if m < b {
      SumSplit(rd, all, a, m, b - 1, sid);
      OverLaws(Sum(rd, all, a, m, sid), Sum(rd, all, m, b - 1, sid), Says(rd.decode(all[b - 1]), sid));
    }
  }

  // ---------------------------------------------------------------- what the calls of a line do

  lemma EnrichCols(db: Db, to: string, host: string, e: Enrichment, now: int, sid: string)
    ensures Cols(ApplyEnrichment(db, to, host, e, now), sid) == Over(Cols(db, sid), if to == sid then e else NOTHING)
  {}

  /** A fold that says nothing new leaves them alone, refused or not. */
  lemma FoldCols(db: Db, fi: FoldInput, host: string, now: int, sid: string)
    requires fi.sid == sid ==> Over(Cols(db, sid), fi.enrich) == Cols(db, sid)
    ensures Cols(ApplyFold(db, fi, host, now), sid) == Cols(db, sid)
  {}

  /** What the calls of a line are: its enrichment, then one fold for each block with the same fields. */
  lemma CallShape(rd: Reader, all: seq<seq<Byte>>, lo: nat, i: nat, s: Scan)
    requires lo <= i < |all|
    ensures var ops, line, now := CallsOf(rd, all, lo, i, s), rd.decode(all[i]), s.clock(i - lo);
            && (ops == [] <==> !Real(line))
            && (ops != [] ==> ops[0] == Enrich(line.value.sid, rd.host, line.value.e, now))
            && (forall j :: 0 < j < |ops| ==> ops[j].Fold? && ops[j].fi.sid == line.value.sid && ops[j].fi.enrich == line.value.e)
            && (forall j :: 0 < j < |ops| ==> ops[j].host == rd.host && ops[j].fi.pane == "" && ops[j].fi.pid == 0)
  {
    var line, now := rd.decode(all[i]), s.clock(i - lo);
    if Real(line) {
      ToolOpsShape(line.value, line.value.tools, rd.host, now, rd.show(now));
    }
  }

  /** The lines a scan has begun after lines up to `i` and `j` calls of line `i`. */
  function Begun(i: nat, j: nat): nat { if j > 0 then i + 1 else i }

  /** Call `j` of a line on top of what the calls before it left. */
  lemma CallCols(rd: Reader, all: seq<seq<Byte>>, lo: nat, i: nat, j: nat, s: Scan, before: Db, after: Db,
                 v: Enrichment, sid: string)
    requires lo <= i < |all| && 0 < j <= |CallsOf(rd, all, lo, i, s)| && after == Apply(before, CallsOf(rd, all, lo, i, s)[j - 1])
    requires Cols(before, sid) == Over(v, Sum(rd, all, lo, Begun(i, j - 1), sid))
    ensures Cols(after, sid) == Over(v, Sum(rd, all, lo, i + 1, sid))
  {
    CallShape(rd, all, lo, i, s);
    var op, rec := CallsOf(rd, all, lo, i, s)[j - 1], rd.decode(all[i]).value;
    var sum := Sum(rd, all, lo, i, sid);
    OverLaws(v, sum, Says(Some(rec), sid));
    if j == 1 {
      EnrichCols(before, rec.sid, rd.host, rec.e, op.now, sid);
    } else {
      OverLaws(Over(v, sum), Says(Some(rec), sid), NOTHING);
      FoldCols(before, op.fi, op.host, op.now, sid);
    }
  }

  /** After all its calls a line has been begun, unless it has none and says nothing. */
  lemma LineOver(rd: Reader, all: seq<seq<Byte>>, lo: nat, i: nat, s: Scan, sid: string)
    requires lo <= i < |all|
    ensures Sum(rd, all, lo, Begun(i, |CallsOf(rd, all, lo, i, s)|), sid) == Sum(rd, all, lo, i + 1, sid)
  {
    CallShape(rd, all, lo, i, s);
    OverLaws(Sum(rd, all, lo, i, sid), NOTHING, NOTHING);
  }

  /** After part of a scan, every column holds the last non-empty value of the lines begun, else what it held. */
  lemma {:induction false} ScanCols(rd: Reader, db: Db, all: seq<seq<Byte>>, lo: nat, i: nat, j: nat, s: Scan, n: nat,
                                    v: Enrichment, sid: string)
    requires lo <= i <= |all| && (j > 0 ==> i < |all| && j <= |CallsOf(rd, all, lo, i, s)|) && NoFailure(s)
    requires n == Begun(i, j) && v == Cols(db, sid)
    ensures Cols(ScanDb(rd, db, all, lo, i, j, s), sid) == Over(v, Sum(rd, all, lo, n, sid))
    decreases i, j
  {
    if j > 0 {
      ScanCols(rd, db, all, lo, i, j - 1, s, Begun(i, j - 1), v, sid);
      CallCols(rd, all, lo, i, j, s, ScanDb(rd, db, all, lo, i, j - 1, s), ScanDb(rd, db, all, lo, i, j, s), v, sid);
    } else if i > lo {
      var calls := |CallsOf(rd, all, lo, i - 1, s)|;
      ScanCols(rd, db, all, lo, i - 1, calls, s, Begun(i - 1, calls), v, sid);
      LineOver(rd, all, lo, i - 1, s, sid);
    } else {
      OverLaws(v, NOTHING, NOTHING);
    }
  }

  /** The lines a scan of lines `lo` up to `hi` begins. */
  function Started(rd: Reader, all: seq<seq<Byte>>, lo: nat, hi: nat, s: Scan): (n: nat)
    requires lo <= hi <= |all|
    ensures lo <= n <= hi
  {
    if Dies(lo, hi, s.crash) then
      var i := lo + s.crash.value.line;
      Begun(i, Least(s.crash.value.calls, |CallsOf(rd, all, lo, i, s)|))
    else hi
  }

  lemma StepCols(rd: Reader, db: Db, all: seq<seq<Byte>>, lo: nat, hi: nat, s: Scan, sid: string)
    requires lo <= hi <= |all| && NoFailure(s)
    ensures Cols(StepDb(rd, db, all, lo, hi, s), sid) == Over(Cols(db, sid), Sum(rd, all, lo, Started(rd, all, lo, hi, s), sid))
  {
    var n, v := Started(rd, all, lo, hi, s), Cols(db, sid);
    if Dies(lo, hi, s.crash) {
      var i := lo + s.crash.value.line;
      ScanCols(rd, db, all, lo, i, Least(s.crash.value.calls, |CallsOf(rd, all, lo, i, s)|), s, n, v, sid);
    } else {
      ScanCols(rd, db, all, lo, hi, 0, s, n, v, sid);
    }
  }

  // ---------------------------------------------------------------- whole runs of the tail

  /** Reading on from the cursor to line `top` gives the columns of reading all of it. */
  ghost predicate ColsOk(rd: Reader, data: seq<Byte>, db: Db, t: Tail, top: nat, sid: string) {
    var all := Lines(data, 0, rd.cap);
    && Boundary(data, t.cursor) && CountBefore(data, t.cursor, rd.cap) <= top <= |all|
    && Over(Cols(t.db, sid), Sum(rd, all, CountBefore(data, t.cursor, rd.cap), top, sid)) == Over(Cols(db, sid), Sum(rd, all, 0, top, sid))
  }

  /** Values laid over, the lines begun read again or left behind, and the rest read. */
  lemma ReadAgain(rd: Reader, all: seq<seq<Byte>>, v: Enrichment, lo: nat, begun: nat, top: nat, sid: string)
    requires lo <= begun <= top <= |all|
    ensures var v1 := Over(v, Sum(rd, all, lo, begun, sid));
            && Over(v1, Sum(rd, all, lo, top, sid)) == Over(v, Sum(rd, all, lo, top, sid))
            && Over(v1, Sum(rd, all, begun, top, sid)) == Over(v, Sum(rd, all, lo, top, sid))
  {
    SumSplit(rd, all, lo, begun, top, sid);
    OverLaws(v, Sum(rd, all, lo, begun, sid), Sum(rd, all, begun, top, sid));
  }

  lemma StepColsOk(rd: Reader, data: seq<Byte>, db: Db, t: Tail, s: Scan, top: nat, sid: string)
    requires ColsOk(rd, data, db, t, top, sid) && NoFailure(s) && s.len <= |data| && CountBefore(data, s.len, rd.cap) <= top
    ensures ColsOk(rd, data, db, Step(rd, data, t, s), top, sid)
  {
    if t.cursor < s.len {
      var all, lo, hi := Lines(data, 0, rd.cap), CountBefore(data, t.cursor, rd.cap), CountBefore(data, s.len, rd.cap);
      CursorStep(rd, data, t, s);
      StepCols(rd, t.db, all, lo, hi, s, sid);
      ReadAgain(rd, all, Cols(t.db, sid), lo, Started(rd, all, lo, hi, s), top, sid);
    }
  }

  lemma {:induction false} RunColsOk(rd: Reader, data: seq<Byte>, db: Db, scans: seq<Scan>, len: nat, sid: string)
    requires Within(scans, len) && len <= |data| && NoFailures(scans)
    ensures ColsOk(rd, data, db, RunTail(rd, data, db, scans), CountBefore(data, len, rd.cap), sid)
    decreases scans
  {
    var top := CountBefore(data, len, rd.cap);
    ReadOn(data, data[..len], 0, rd.cap);
    if scans == [] {
      assert data[..0] == [];
    } else {
      var n := |scans| - 1;
      RunColsOk(rd, data, db, scans[..n], len, sid);
      CountGrows(data, scans[n].len, len, rd.cap);
      StepColsOk(rd, data, db, RunTail(rd, data, db, scans[..n]), scans[n], top, sid);
    }
  }

  /** The columns of one batch read. */
  lemma BatchCols(rd: Reader, db: Db, all: seq<seq<Byte>>, lines: seq<seq<Byte>>, clock: nat -> int, sid: string)
    requires lines <= all
    ensures Cols(Read(rd, db, lines, clock, None), sid) == Over(Cols(db, sid), Sum(rd, all, 0, |lines|, sid))
  {
    StepOfSegment(rd, db, all, lines, 0, |lines|, Sound(clock, None));
    StepCols(rd, db, all, 0, |lines|, Sound(clock, None), sid);
  }

  /**
   * When only the tail writes, every enrichment column ends as in one batch read, whatever crashes came before:
   * the scan that completes has read again all that was folded past the cursor. No timestamps are needed.
   */
  lemma ColumnsAreBatch(rd: Reader, data: seq<Byte>, db: Db, scans: seq<Scan>, len: nat, clock: nat -> int, sid: string)
    requires scans != [] && Within(scans, len) && len <= |data| && NoFailures(scans)
    requires scans[|scans| - 1].crash.None? && scans[|scans| - 1].len == len
    ensures Cols(RunTail(rd, data, db, scans).db, sid) == Cols(Read(rd, db, Lines(data[..len], 0, rd.cap), clock, None), sid)
  {
    RunColsOk(rd, data, db, scans, len, sid);
    CursorAtEnd(rd, data, db, scans, len);
    ReadOn(data, data[..len], 0, rd.cap);
    BatchCols(rd, db, Lines(data, 0, rd.cap), Lines(data[..len], 0, rd.cap), clock, sid);
    OverLaws(Cols(RunTail(rd, data, db, scans).db, sid), NOTHING, NOTHING);
  }

  // ---------------------------------------------------------------- the whole row

  /** The columns no transcript line writes; those of a row the tail would insert, when there is none. */
  datatype Others = Others(host: string, pane: string, mission: string, response: string, title: string)

  function OthersOf(db: Db, host: string, sid: string): Others {
    if sid !in db.rows then Others(host, "", "", "", "")
    else
      var r := db.rows[sid];
      Others(r.host, r.pane, r.mission, r.response, r.title)
  }

  lemma CallOthers(db: Db, op: Op, host: string, sid: string)
    requires op.Enrich? || (op.Fold? && op.fi.pane == "")
    requires op.host == host
    ensures OthersOf(Apply(db, op), host, sid) == OthersOf(db, host, sid)
  {}

  lemma {:induction false} ScanOthers(rd: Reader, db: Db, all: seq<seq<Byte>>, lo: nat, i: nat, j: nat, s: Scan, sid: string)
    requires lo <= i <= |all| && (j > 0 ==> i < |all| && j <= |CallsOf(rd, all, lo, i, s)|)
    ensures OthersOf(ScanDb(rd, db, all, lo, i, j, s), rd.host, sid) == OthersOf(db, rd.host, sid)
    decreases i, j
  {
    if j > 0 {
      ScanOthers(rd, db, all, lo, i, j - 1, s, sid);
      CallShape(rd, all, lo, i, s);
      CallOthers(ScanDb(rd, db, all, lo, i, j - 1, s), CallsOf(rd, all, lo, i, s)[j - 1], rd.host, sid);
    } else if i > lo {
      ScanOthers(rd, db, all, lo, i - 1, |CallsOf(rd, all, lo, i - 1, s)|, s, sid);
    }
  }

  lemma StepOthers(rd: Reader, db: Db, all: seq<seq<Byte>>, lo: nat, hi: nat, s: Scan, sid: string)
    requires lo <= hi <= |all|
    ensures OthersOf(StepDb(rd, db, all, lo, hi, s), rd.host, sid) == OthersOf(db, rd.host, sid)
  {
    if Dies(lo, hi, s.crash) {
      var i := lo + s.crash.value.line;
      ScanOthers(rd, db, all, lo, i, Least(s.crash.value.calls, |CallsOf(rd, all, lo, i, s)|), s, sid);
    } else {
      ScanOthers(rd, db, all, lo, hi, 0, s, sid);
    }
  }

  lemma {:induction false} RunOthers(rd: Reader, data: seq<Byte>, db: Db, scans: seq<Scan>, sid: string)
    requires Within(scans, |data|)
    ensures OthersOf(RunTail(rd, data, db, scans).db, rd.host, sid) == OthersOf(db, rd.host, sid)
    decreases scans
  {
    if scans != [] {
      var n := |scans| - 1;
      RunOthers(rd, data, db, scans[..n], sid);
      var t := RunTail(rd, data, db, scans[..n]);
      if t.cursor < scans[n].len {
        var lines := Lines(data[..scans[n].len], t.cursor, rd.cap);
        StepOthers(rd, t.db, lines, 0, |lines|, scans[n], sid);
      }
    }
  }

  /** A row without its two clock columns, started_at and last_event_at. */
  function Timeless(r: Row): Row { r.(started := 0, lastEvent := 0) }

  /** Core, enrichment columns and the others make up the row. */
  lemma SameSession(a: Db, b: Db, host: string, sid: string)
    requires Project(a) == Project(b)
    requires Cols(a, sid) == Cols(b, sid) && OthersOf(a, host, sid) == OthersOf(b, host, sid)
    ensures a.folds == b.folds && (sid in a.rows <==> sid in b.rows)
    ensures sid in a.rows ==> Timeless(a.rows[sid]) == Timeless(b.rows[sid])
  {
    assert sid in Project(a).rows <==> sid in a.rows;
    assert sid in Project(b).rows <==> sid in b.rows;
    if sid in a.rows {
      assert Project(a).rows[sid] == Project(b).rows[sid];
    }
  }

  /** When only the tail writes, a completed furthest scan leaves the whole table of one batch read, but for its clock columns. */
  lemma SessionsAreBatch(rd: Reader, data: seq<Byte>, db: Db, scans: seq<Scan>, len: nat, clock: nat -> int, sid: string)
    requires scans != [] && Within(scans, len) && len <= |data| && NoFailures(scans)
    requires scans[|scans| - 1].crash.None? && scans[|scans| - 1].len == len
    requires AllStamped(rd, Lines(data, 0, rd.cap))
    ensures var t, b := RunTail(rd, data, db, scans).db, Read(rd, db, Lines(data[..len], 0, rd.cap), clock, None);
            && t.folds == b.folds && (sid in t.rows <==> sid in b.rows)
            && (sid in t.rows ==> Timeless(t.rows[sid]) == Timeless(b.rows[sid]))
  {
    var lines := Lines(data[..len], 0, rd.cap);
    TailIsBatch(rd, data, db, scans, len, clock);
    ColumnsAreBatch(rd, data, db, scans, len, clock, sid);
    RunOthers(rd, data, db, scans, sid);
    StepOthers(rd, db, lines, 0, |lines|, Sound(clock, None), sid);
    SameSession(RunTail(rd, data, db, scans).db, Read(rd, db, lines, clock, None), rd.host, sid);
  }

  // ---------------------------------------------------------------- when other channels write too

  /** Some column of `e` is not empty and is not what the session holds. */
  ghost predicate Differs(e: Enrichment, r: Row) {
    || (exists c :: ClaudeHistory.EnrichText(e, c) != "" && ClaudeHistory.EnrichText(e, c) != ClaudeHistory.Text(r, c))
    || (exists c :: ClaudeHistory.EnrichNum(e, c) != 0 && ClaudeHistory.EnrichNum(e, c) != ClaudeHistory.Num(r, c))
  }

  lemma DiffersExactly(e: Enrichment, db: Db, sid: string)
    requires sid in db.rows
    ensures Over(Cols(db, sid), e) != Cols(db, sid) <==> Differs(e, db.rows[sid])
  {
    assert ClaudeHistory.EnrichText(e, ClaudeHistory.Cwd) == e.cwd && ClaudeHistory.EnrichText(e, ClaudeHistory.Branch) == e.branch;
    assert ClaudeHistory.EnrichText(e, ClaudeHistory.Model) == e.model && ClaudeHistory.EnrichText(e, ClaudeHistory.PrUrl) == e.prUrl;
    assert ClaudeHistory.EnrichNum(e, ClaudeHistory.Issue) == e.issue && ClaudeHistory.EnrichNum(e, ClaudeHistory.PrNumber) == e.prNumber;
  }

  /**
   * A scan on a store that other channels have written moves a session's enrichment columns if and only if the
   * lines it begins, most of them perhaps read before, last said something else than the session now holds.
   */
  lemma ScanMovesColumnsExactly(rd: Reader, db: Db, all: seq<seq<Byte>>, lo: nat, hi: nat, s: Scan, sid: string)
    requires lo <= hi <= |all| && NoFailure(s) && sid in db.rows
    ensures Cols(StepDb(rd, db, all, lo, hi, s), sid) != Cols(db, sid)
            <==> Differs(Sum(rd, all, lo, Started(rd, all, lo, hi, s), sid), db.rows[sid])
  {
    StepCols(rd, db, all, lo, hi, s, sid);
    DiffersExactly(Sum(rd, all, lo, Started(rd, all, lo, hi, s), sid), db, sid);
  }

  /** It is real: a line, a hook with a newer branch, and the line read again puts the older branch back. */
  lemma NewerBranchUndone(sid: string, ts: string, host: string, pane: string)
    ensures var e := Enrichment("", "old", "", "", 0, 0);
            var hook := FoldInput(sid, UserPromptSubmit, ts, "", false, pane, 0, e.(branch := "new"));
            var line := Enrich(sid, host, e, 1);
            && Cols(Run(EMPTY, [line, Fold(hook, host, 2)]), sid).branch == "new"
            && Cols(Run(EMPTY, [line, Fold(hook, host, 2), line]), sid).branch == "old"
  {
    var e := Enrichment("", "old", "", "", 0, 0);
    var hook := FoldInput(sid, UserPromptSubmit, ts, "", false, pane, 0, e.(branch := "new"));
    var line := Enrich(sid, host, e, 1);
    RunTwo(EMPTY, line, Fold(hook, host, 2));
    var two, three := [line, Fold(hook, host, 2)], [line, Fold(hook, host, 2), line];
    assert three[..2] == two;
    EnrichCols(Run(EMPTY, two), sid, host, e, 1, sid);
  }
}
