/**
 * Store calls of the transcript tail that fail, or are cut half way: plugins/claude/tail.go:135-145 skips a failed
 * call and the scan still saves the cursor behind the line, and plugins/claude/store.go:123-150 stores a fold's
 * dedup row before it counts the fold.
 */
module ClaudeLost {
  import opened Options
  import opened ClaudeStore
  import opened ClaudeReplay
  import opened ClaudeTail
  import opened ClaudeCrash
  import opened ClaudeColumns
  import ClaudeHistory

  // ---------------------------------------------------------------- which folds are stored

  /** Call `m` of line `n` is a fold of `k`, and got as far as its dedup row. */
  predicate Stores(rd: Reader, all: seq<seq<Byte>>, lo: nat, n: nat, m: nat, s: Scan, k: FoldKey) {
    && lo <= n < |all| && m < |CallsOf(rd, all, lo, n, s)| && Point(n - lo, m) !in s.failed
    && CallsOf(rd, all, lo, n, s)[m].Fold? && KeyOf(CallsOf(rd, all, lo, n, s)[m].fi) == k
  }

  /** Some call before call `j` of line `i` did that. */
  ghost predicate ScanStores(rd: Reader, all: seq<seq<Byte>>, lo: nat, i: nat, j: nat, s: Scan, k: FoldKey) {
    exists n: nat, m: nat :: (n < i || (n == i && m < j)) && Stores(rd, all, lo, n, m, s, k)
  }

  lemma ApplyFolds(db: Db, op: Op, k: FoldKey)
    requires op.Enrich? || op.Fold?
    ensures k in Apply(db, op).folds <==> k in db.folds || (op.Fold? && KeyOf(op.fi) == k)
    ensures k in Half(db, op).folds <==> k in db.folds || (op.Fold? && KeyOf(op.fi) == k)
  {}

  lemma NextStores(rd: Reader, all: seq<seq<Byte>>, lo: nat, i: nat, j: nat, s: Scan, k: FoldKey)
    requires j > 0
    ensures ScanStores(rd, all, lo, i, j, s, k) <==> ScanStores(rd, all, lo, i, j - 1, s, k) || Stores(rd, all, lo, i, j - 1, s, k)
  {}

  lemma LineStores(rd: Reader, all: seq<seq<Byte>>, lo: nat, i: nat, s: Scan, k: FoldKey)
    requires lo <= i < |all|
    ensures ScanStores(rd, all, lo, i + 1, 0, s, k) <==> ScanStores(rd, all, lo, i, |CallsOf(rd, all, lo, i, s)|, s, k)
  {}

  /** Part of a scan, failures and all: a fold is in the dedup set if it was before or if a call for it succeeded. */
  lemma {:induction false} ScanFolds(rd: Reader, db: Db, all: seq<seq<Byte>>, lo: nat, i: nat, j: nat, s: Scan, k: FoldKey)
    requires lo <= i <= |all| && (j > 0 ==> i < |all| && j <= |CallsOf(rd, all, lo, i, s)|)
    ensures k in ScanDb(rd, db, all, lo, i, j, s).folds <==> k in db.folds || ScanStores(rd, all, lo, i, j, s, k)
    decreases i, j
  {
    if j > 0 {
      ScanFolds(rd, db, all, lo, i, j - 1, s, k);
      CallShape(rd, all, lo, i, s);
      ApplyFolds(ScanDb(rd, db, all, lo, i, j - 1, s), CallsOf(rd, all, lo, i, s)[j - 1], k);
      NextStores(rd, all, lo, i, j, s, k);
    } else if i > lo {
      ScanFolds(rd, db, all, lo, i - 1, |CallsOf(rd, all, lo, i - 1, s)|, s, k);
      LineStores(rd, all, lo, i - 1, s, k);
    }
  }

  /** Some call of a scan of lines `lo` up to `hi` did that, before it died if it did. */
  ghost predicate StepStores(rd: Reader, all: seq<seq<Byte>>, lo: nat, hi: nat, s: Scan, k: FoldKey)
    requires lo <= hi <= |all|
  {
    if Dies(lo, hi, s.crash) then
      var i := lo + s.crash.value.line;
      ScanStores(rd, all, lo, i, Least(s.crash.value.calls, |CallsOf(rd, all, lo, i, s)|), s, k)
    else ScanStores(rd, all, lo, hi, 0, s, k)
  }

  lemma StepFolds(rd: Reader, db: Db, all: seq<seq<Byte>>, lo: nat, hi: nat, s: Scan, k: FoldKey)
    requires lo <= hi <= |all|
    ensures k in StepDb(rd, db, all, lo, hi, s).folds <==> k in db.folds || StepStores(rd, all, lo, hi, s, k)
  {
    if Dies(lo, hi, s.crash) {
      var i := lo + s.crash.value.line;
      ScanFolds(rd, db, all, lo, i, Least(s.crash.value.calls, |CallsOf(rd, all, lo, i, s)|), s, k);
    } else {
      ScanFolds(rd, db, all, lo, hi, 0, s, k);
    }
  }

  /** Some scan of the run did that. */
  ghost predicate TailStores(rd: Reader, data: seq<Byte>, db: Db, scans: seq<Scan>, k: FoldKey)
    requires Within(scans, |data|)
    decreases scans
  {
    scans != [] &&
    var n := |scans| - 1;
    var t, s, all := RunTail(rd, data, db, scans[..n]), scans[n], Lines(data, 0, rd.cap);
    || TailStores(rd, data, db, scans[..n], k)
    || (t.cursor < s.len && CountBefore(data, t.cursor, rd.cap) <= CountBefore(data, s.len, rd.cap) <= |all|
        && StepStores(rd, all, CountBefore(data, t.cursor, rd.cap), CountBefore(data, s.len, rd.cap), s, k))
  }

  /** Any run, any crashes, any failed calls: exactly which folds the dedup set holds. */
  lemma {:induction false} FoldsExactly(rd: Reader, data: seq<Byte>, db: Db, scans: seq<Scan>, k: FoldKey)
    requires Within(scans, |data|)
    ensures k in RunTail(rd, data, db, scans).db.folds <==> k in db.folds || TailStores(rd, data, db, scans, k)
    decreases scans
  {
    if scans != [] {
      var n := |scans| - 1;
      var t, s := RunTail(rd, data, db, scans[..n]), scans[n];
      FoldsExactly(rd, data, db, scans[..n], k);
      CursorOk(rd, data, db, scans[..n], |data|);
      if t.cursor < s.len {
        CursorStep(rd, data, t, s);
        StepFolds(rd, t.db, Lines(data, 0, rd.cap), CountBefore(data, t.cursor, rd.cap), CountBefore(data, s.len, rd.cap), s, k);
      }
    }
  }

  // ---------------------------------------------------------------- which there are to store

  predicate HoldsKey(line: Option<Record>, k: FoldKey) { Real(line) && line.value.tools != [] && k == ToolKey(line.value) }

  /** One of the first `top` lines has a tool_use block with this key. */
  ghost predicate InLines(rd: Reader, all: seq<seq<Byte>>, top: nat, k: FoldKey)
    requires top <= |all|
  {
    exists n :: 0 <= n < top && HoldsKey(rd.decode(all[n]), k)
  }

  lemma StoresIsHeld(rd: Reader, all: seq<seq<Byte>>, lo: nat, n: nat, m: nat, s: Scan, k: FoldKey)
    requires AllStamped(rd, all) && Stores(rd, all, lo, n, m, s, k)
    ensures HoldsKey(rd.decode(all[n]), k)
  {
    var rec, now := rd.decode(all[n]).value, s.clock(n - lo);
    ToolOpsShape(rec, rec.tools, rd.host, now, rd.show(now));
    assert CallsOf(rd, all, lo, n, s)[m] == ToolOps(rec, rec.tools, rd.host, now, rd.show(now))[m - 1];
  }

  lemma HeldIsStored(rd: Reader, all: seq<seq<Byte>>, n: nat, s: Scan, k: FoldKey)
    requires AllStamped(rd, all) && n < |all| && HoldsKey(rd.decode(all[n]), k) && NoFailure(s)
    ensures Stores(rd, all, 0, n, 1, s, k)
  {
    var rec, now := rd.decode(all[n]).value, s.clock(n);
    ToolOpsShape(rec, rec.tools, rd.host, now, rd.show(now));
    assert CallsOf(rd, all, 0, n, s)[1] == ToolOps(rec, rec.tools, rd.host, now, rd.show(now))[0];
  }

  lemma StepWithin(rd: Reader, all: seq<seq<Byte>>, lo: nat, hi: nat, top: nat, s: Scan, k: FoldKey)
    requires AllStamped(rd, all) && lo <= hi <= top <= |all| && StepStores(rd, all, lo, hi, s, k)
    ensures InLines(rd, all, top, k)
  {
    var n: nat, m: nat :| n < hi && Stores(rd, all, lo, n, m, s, k);
    StoresIsHeld(rd, all, lo, n, m, s, k);
  }

  lemma {:induction false} TailWithin(rd: Reader, data: seq<Byte>, db: Db, scans: seq<Scan>, len: nat, k: FoldKey)
    requires Within(scans, len) && len <= |data| && AllStamped(rd, Lines(data, 0, rd.cap))
    requires TailStores(rd, data, db, scans, k)
    ensures var all, top := Lines(data, 0, rd.cap), CountBefore(data, len, rd.cap); top <= |all| && InLines(rd, all, top, k)
    decreases scans
  {
    var n := |scans| - 1;
    var t, s := RunTail(rd, data, db, scans[..n]), scans[n];
    ReadOn(data, data[..len], 0, rd.cap);
    CountGrows(data, s.len, len, rd.cap);
    CursorOk(rd, data, db, scans[..n], len);
    if TailStores(rd, data, db, scans[..n], k) {
      TailWithin(rd, data, db, scans[..n], len, k);
    } else {
      StepWithin(rd, Lines(data, 0, rd.cap), CountBefore(data, t.cursor, rd.cap), CountBefore(data, s.len, rd.cap),
                 CountBefore(data, len, rd.cap), s, k);
    }
  }

  /** A batch read stores every fold there is. */
  lemma BatchFolds(rd: Reader, db: Db, all: seq<seq<Byte>>, lines: seq<seq<Byte>>, clock: nat -> int, k: FoldKey)
    requires AllStamped(rd, all) && lines <= all
    ensures k in Read(rd, db, lines, clock, None).folds <==> k in db.folds || InLines(rd, all, |lines|, k)
  {
    var s := Sound(clock, None);
    StepOfSegment(rd, db, all, lines, 0, |lines|, s);
    StepFolds(rd, db, all, 0, |lines|, s, k);
    if StepStores(rd, all, 0, |lines|, s, k) {
      StepWithin(rd, all, 0, |lines|, |lines|, s, k);
    }
    if InLines(rd, all, |lines|, k) {
      var n :| 0 <= n < |lines| && HoldsKey(rd.decode(all[n]), k);
      HeldIsStored(rd, all, n, s, k);
    }
  }

  // ---------------------------------------------------------------- which folds are stored but not counted

  /** Call `j` of a line gets a new fold no further than its dedup row. */
  predicate Cuts(before: Db, op: Op, at: Point, s: Scan) {
    at !in s.failed && at in s.half && op.Fold? && KeyOf(op.fi) !in before.folds
  }

  /** The folds that part of a scan cut. */
  function ScanCut(rd: Reader, db: Db, lines: seq<seq<Byte>>, lo: nat, i: nat, j: nat, s: Scan): set<FoldKey>
    requires lo <= i <= |lines| && (j > 0 ==> i < |lines| && j <= |CallsOf(rd, lines, lo, i, s)|)
    decreases i, j
  {
    if j > 0 then
      var op := CallsOf(rd, lines, lo, i, s)[j - 1];
      ScanCut(rd, db, lines, lo, i, j - 1, s) +
      if Cuts(ScanDb(rd, db, lines, lo, i, j - 1, s), op, Point(i - lo, j - 1), s) then {KeyOf(op.fi)} else {}
    else if i == lo then {}
    else ScanCut(rd, db, lines, lo, i - 1, |CallsOf(rd, lines, lo, i - 1, s)|, s)
  }

  function StepCut(rd: Reader, db: Db, lines: seq<seq<Byte>>, lo: nat, hi: nat, s: Scan): set<FoldKey>
    requires lo <= hi <= |lines|
  {
    if Dies(lo, hi, s.crash) then
      var i := lo + s.crash.value.line;
      ScanCut(rd, db, lines, lo, i, Least(s.crash.value.calls, |CallsOf(rd, lines, lo, i, s)|), s)
    else ScanCut(rd, db, lines, lo, hi, 0, s)
  }

  /** The folds that the scans of a run cut. */
  function TailCut(rd: Reader, data: seq<Byte>, db: Db, scans: seq<Scan>): set<FoldKey>
    requires Within(scans, |data|)
  {
    if scans == [] then {}
    else
      var n := |scans| - 1;
      var t := RunTail(rd, data, db, scans[..n]);
      TailCut(rd, data, db, scans[..n]) +
      if scans[n].len <= t.cursor then {}
      else
        var lines := Lines(data[..scans[n].len], t.cursor, rd.cap);
        StepCut(rd, t.db, lines, 0, |lines|, scans[n])
  }

  /** The fold of every block of the session was stored, by some scan or before, and none was cut. */
  ghost predicate NoneLost(rd: Reader, data: seq<Byte>, db: Db, scans: seq<Scan>, len: nat, sid: string)
    requires Within(scans, |data|) && len <= |data| && CountBefore(data, len, rd.cap) <= |Lines(data, 0, rd.cap)|
  {
    && (forall k: FoldKey :: k.sid == sid && InLines(rd, Lines(data, 0, rd.cap), CountBefore(data, len, rd.cap), k) ==>
                               k in db.folds || TailStores(rd, data, db, scans, k))
    && (forall k: FoldKey :: k in TailCut(rd, data, db, scans) ==> k.sid != sid)
  }

  // ---------------------------------------------------------------- what tool_calls counts

  /** tool_calls is the number of the session's PreToolUse folds, as every run of the channels leaves it, less those cut. */
  predicate Counted(db: Db, cut: set<FoldKey>, sid: string) {
    && cut <= db.folds
    && if sid in db.rows then db.rows[sid].toolCalls == |ClaudeHistory.Calls(db.folds - cut, sid)|
       else ClaudeHistory.Calls(db.folds - cut, sid) == {}
  }

  lemma CallCounted(db: Db, cut: set<FoldKey>, op: Op, sid: string)
    requires Counted(db, cut, sid) && (op.Enrich? || (op.Fold? && op.fi.event == PreToolUse))
    ensures Counted(Apply(db, op), cut, sid)
  {
    if op.Fold? && KeyOf(op.fi) !in db.folds {
      ClaudeHistory.CallsGrow(db.folds - cut, KeyOf(op.fi), sid);
      assert db.folds + {KeyOf(op.fi)} - cut == (db.folds - cut) + {KeyOf(op.fi)};
    }
  }

  lemma HalfCounted(db: Db, cut: set<FoldKey>, op: Op, sid: string)
    requires Counted(db, cut, sid)
    ensures Counted(Half(db, op), cut + if op.Fold? && KeyOf(op.fi) !in db.folds then {KeyOf(op.fi)} else {}, sid)
  {
    if op.Fold? {
      var k := KeyOf(op.fi);
      if k in db.folds {
        assert db.folds + {k} == db.folds && cut + {} == cut;
      } else {
        assert db.folds + {k} - (cut + {k}) == db.folds - cut;
      }
    } else {
      assert cut + {} == cut;
    }
  }

  /** One call, whatever its outcome. */
  lemma OutcomeCounted(before: Db, after: Db, cut: set<FoldKey>, more: set<FoldKey>, op: Op, at: Point, s: Scan, sid: string)
    requires Counted(before, cut, sid) && (op.Enrich? || (op.Fold? && op.fi.event == PreToolUse))
    requires after == if at in s.failed then before else if at in s.half then Half(before, op) else Apply(before, op)
    requires more == cut + if Cuts(before, op, at, s) then {KeyOf(op.fi)} else {}
    ensures Counted(after, more, sid)
  {
    if at in s.failed {
      assert more == cut;
    } else if at in s.half {
      HalfCounted(before, cut, op, sid);
    } else {
      assert more == cut;
      CallCounted(before, cut, op, sid);
    }
  }

  lemma {:induction false} ScanCounted(rd: Reader, db: Db, all: seq<seq<Byte>>, lo: nat, i: nat, j: nat, s: Scan, cut: set<FoldKey>,
                                       sid: string)
    requires lo <= i <= |all| && (j > 0 ==> i < |all| && j <= |CallsOf(rd, all, lo, i, s)|) && Counted(db, cut, sid)
    ensures Counted(ScanDb(rd, db, all, lo, i, j, s), cut + ScanCut(rd, db, all, lo, i, j, s), sid)
    decreases i, j
  {
    if j > 0 {
      ScanCounted(rd, db, all, lo, i, j - 1, s, cut, sid);
      CallEvents(rd, all, lo, i, s);
      var before, after := ScanDb(rd, db, all, lo, i, j - 1, s), ScanDb(rd, db, all, lo, i, j, s);
      var sofar, more := cut + ScanCut(rd, db, all, lo, i, j - 1, s), cut + ScanCut(rd, db, all, lo, i, j, s);
      OutcomeCounted(before, after, sofar, more, CallsOf(rd, all, lo, i, s)[j - 1], Point(i - lo, j - 1), s, sid);
    } else if i > lo {
      ScanCounted(rd, db, all, lo, i - 1, |CallsOf(rd, all, lo, i - 1, s)|, s, cut, sid);
    } else {
      assert cut + {} == cut;
    }
  }

  lemma CallEvents(rd: Reader, all: seq<seq<Byte>>, lo: nat, i: nat, s: Scan)
    requires lo <= i < |all|
    ensures forall j :: 0 <= j < |CallsOf(rd, all, lo, i, s)| ==>
                          var op := CallsOf(rd, all, lo, i, s)[j]; op.Enrich? || (op.Fold? && op.fi.event == PreToolUse)
  {
    var line, now := rd.decode(all[i]), s.clock(i - lo);
    if Real(line) {
      ToolOpsShape(line.value, line.value.tools, rd.host, now, rd.show(now));
    }
  }

  lemma StepCounted(rd: Reader, db: Db, all: seq<seq<Byte>>, lo: nat, hi: nat, s: Scan, cut: set<FoldKey>, sid: string)
    requires lo <= hi <= |all| && Counted(db, cut, sid)
    ensures Counted(StepDb(rd, db, all, lo, hi, s), cut + StepCut(rd, db, all, lo, hi, s), sid)
  {
    if Dies(lo, hi, s.crash) {
      var i := lo + s.crash.value.line;
      ScanCounted(rd, db, all, lo, i, Least(s.crash.value.calls, |CallsOf(rd, all, lo, i, s)|), s, cut, sid);
    } else {
      ScanCounted(rd, db, all, lo, hi, 0, s, cut, sid);
    }
  }

  lemma {:induction false} RunCounted(rd: Reader, data: seq<Byte>, db: Db, scans: seq<Scan>, sid: string)
    requires Within(scans, |data|) && Counted(db, {}, sid)
    ensures Counted(RunTail(rd, data, db, scans).db, TailCut(rd, data, db, scans), sid)
    decreases scans
  {
    if scans != [] {
      var n := |scans| - 1;
      RunCounted(rd, data, db, scans[..n], sid);
      var t := RunTail(rd, data, db, scans[..n]);
      if t.cursor < scans[n].len {
        var lines := Lines(data[..scans[n].len], t.cursor, rd.cap);
        StepCounted(rd, t.db, lines, 0, |lines|, scans[n], TailCut(rd, data, db, scans[..n]), sid);
      } else {
        assert TailCut(rd, data, db, scans[..n]) + {} == TailCut(rd, data, db, scans[..n]);
      }
    }
  }

  lemma {:induction false} NothingCut(rd: Reader, db: Db, lines: seq<seq<Byte>>, lo: nat, i: nat, j: nat, s: Scan)
    requires lo <= i <= |lines| && (j > 0 ==> i < |lines| && j <= |CallsOf(rd, lines, lo, i, s)|) && NoFailure(s)
    ensures ScanCut(rd, db, lines, lo, i, j, s) == {}
    decreases i, j
  {
    if j > 0 {
      NothingCut(rd, db, lines, lo, i, j - 1, s);
    } else if i > lo {
      NothingCut(rd, db, lines, lo, i - 1, |CallsOf(rd, lines, lo, i - 1, s)|, s);
    }
  }

  lemma SubsetCount(a: set<FoldKey>, b: set<FoldKey>)
    requires a <= b
    ensures |a| == |b| <==> b <= a
  {
    assert b == a + (b - a);
    assert |b| == |a| + |b - a|;
  }

  /** The dedup set never holds more than a batch read's, and exactly when what it counts of a session is all. */
  lemma FoldsWithin(rd: Reader, data: seq<Byte>, db: Db, scans: seq<Scan>, len: nat, clock: nat -> int, sid: string)
    requires Within(scans, len) && len <= |data| && AllStamped(rd, Lines(data, 0, rd.cap)) && Counted(db, {}, sid)
    ensures var t, b := RunTail(rd, data, db, scans).db, Read(rd, db, Lines(data[..len], 0, rd.cap), clock, None);
            var counted := ClaudeHistory.Calls(t.folds - TailCut(rd, data, db, scans), sid);
            && CountBefore(data, len, rd.cap) <= |Lines(data, 0, rd.cap)|
            && counted <= ClaudeHistory.Calls(b.folds, sid)
            && (ClaudeHistory.Calls(b.folds, sid) <= counted <==> NoneLost(rd, data, db, scans, len, sid))
  {
    var all, lines := Lines(data, 0, rd.cap), Lines(data[..len], 0, rd.cap);
    var t, b := RunTail(rd, data, db, scans).db, Read(rd, db, lines, clock, None);
    ReadOn(data, data[..len], 0, rd.cap);
    RunCounted(rd, data, db, scans, sid);
    forall k ensures k in t.folds <==> k in db.folds || TailStores(rd, data, db, scans, k) {
      FoldsExactly(rd, data, db, scans, k);
    }
    forall k ensures k in b.folds <==> k in db.folds || InLines(rd, all, |lines|, k) {
      BatchFolds(rd, db, all, lines, clock, k);
    }
    forall k | TailStores(rd, data, db, scans, k) ensures InLines(rd, all, |lines|, k) {
      TailWithin(rd, data, db, scans, len, k);
    }
    TailCutCalls(rd, data, db, scans);
    LostExactly(rd, data, db, scans, len, sid, t.folds, b.folds, TailCut(rd, data, db, scans));
  }

  lemma LostExactly(rd: Reader, data: seq<Byte>, db: Db, scans: seq<Scan>, len: nat, sid: string, t: set<FoldKey>, b: set<FoldKey>,
                    cut: set<FoldKey>)
    requires Within(scans, |data|) && len <= |data| && CountBefore(data, len, rd.cap) <= |Lines(data, 0, rd.cap)|
    requires forall k :: k in t <==> k in db.folds || TailStores(rd, data, db, scans, k)
    requires forall k :: k in b <==> k in db.folds || InLines(rd, Lines(data, 0, rd.cap), CountBefore(data, len, rd.cap), k)
    requires cut == TailCut(rd, data, db, scans) && cut <= t <= b && forall k :: k in cut ==> k.event == PreToolUse
    ensures ClaudeHistory.Calls(b, sid) <= ClaudeHistory.Calls(t - cut, sid) <==> NoneLost(rd, data, db, scans, len, sid)
  {
    if ClaudeHistory.Calls(b, sid) <= ClaudeHistory.Calls(t - cut, sid) {
      forall k: FoldKey | k.sid == sid && InLines(rd, Lines(data, 0, rd.cap), CountBefore(data, len, rd.cap), k)
        ensures k in db.folds || TailStores(rd, data, db, scans, k)
      {
        assert k in ClaudeHistory.Calls(b, sid);
      }
      forall k: FoldKey | k in cut ensures k.sid != sid {
        assert k.sid == sid ==> k in ClaudeHistory.Calls(b, sid);
      }
    }
  }

  /** What is cut is a tool call. */
  lemma {:induction false} ScanCutCalls(rd: Reader, db: Db, lines: seq<seq<Byte>>, lo: nat, i: nat, j: nat, s: Scan)
    requires lo <= i <= |lines| && (j > 0 ==> i < |lines| && j <= |CallsOf(rd, lines, lo, i, s)|)
    ensures forall k :: k in ScanCut(rd, db, lines, lo, i, j, s) ==> k.event == PreToolUse
    decreases i, j
  {
    if j > 0 {
      ScanCutCalls(rd, db, lines, lo, i, j - 1, s);
      CallEvents(rd, lines, lo, i, s);
    } else if i > lo {
      ScanCutCalls(rd, db, lines, lo, i - 1, |CallsOf(rd, lines, lo, i - 1, s)|, s);
    }
  }

  lemma {:induction false} TailCutCalls(rd: Reader, data: seq<Byte>, db: Db, scans: seq<Scan>)
    requires Within(scans, |data|)
    ensures forall k :: k in TailCut(rd, data, db, scans) ==> k.event == PreToolUse
    decreases scans
  {
    if scans != [] {
      var n := |scans| - 1;
      TailCutCalls(rd, data, db, scans[..n]);
      var t, s := RunTail(rd, data, db, scans[..n]), scans[n];
      if t.cursor < s.len {
        var lines := Lines(data[..s.len], t.cursor, rd.cap);
        if Dies(0, |lines|, s.crash) {
          var i := s.crash.value.line;
          ScanCutCalls(rd, t.db, lines, 0, i, Least(s.crash.value.calls, |CallsOf(rd, lines, 0, i, s)|), s);
        } else {
          ScanCutCalls(rd, t.db, lines, 0, |lines|, 0, s);
        }
      }
    }
  }

  /**
   * Any run, any crashes between or inside its calls, any failed calls: tool_calls of a session is that of one batch
   * read if and only if the fold of every one of its blocks was stored by some scan or before, and none was cut
   * between its dedup row and its count.
   */
  lemma ToolCallsExactly(rd: Reader, data: seq<Byte>, db: Db, scans: seq<Scan>, len: nat, clock: nat -> int, sid: string)
    requires Within(scans, len) && len <= |data| && AllStamped(rd, Lines(data, 0, rd.cap)) && Counted(db, {}, sid)
    ensures CountBefore(data, len, rd.cap) <= |Lines(data, 0, rd.cap)|
    ensures var t, b := RunTail(rd, data, db, scans).db, Read(rd, db, Lines(data[..len], 0, rd.cap), clock, None);
            sid in t.rows && sid in b.rows ==>
              (t.rows[sid].toolCalls == b.rows[sid].toolCalls <==> NoneLost(rd, data, db, scans, len, sid))
  {
    var lines := Lines(data[..len], 0, rd.cap);
    var t, b := RunTail(rd, data, db, scans).db, Read(rd, db, lines, clock, None);
    FoldsWithin(rd, data, db, scans, len, clock, sid);
    RunCounted(rd, data, db, scans, sid);
    BatchCounted(rd, db, lines, clock, sid);
    SubsetCount(ClaudeHistory.Calls(t.folds - TailCut(rd, data, db, scans), sid), ClaudeHistory.Calls(b.folds, sid));
  }

  lemma BatchCounted(rd: Reader, db: Db, lines: seq<seq<Byte>>, clock: nat -> int, sid: string)
    requires Counted(db, {}, sid)
    ensures var b := Read(rd, db, lines, clock, None);
            sid in b.rows ==> b.rows[sid].toolCalls == |ClaudeHistory.Calls(b.folds, sid)|
  {
    var s := Sound(clock, None);
    NothingCut(rd, db, lines, 0, |lines|, 0, s);
    StepCounted(rd, db, lines, 0, |lines|, s, {}, sid);
    var b := Read(rd, db, lines, clock, None);
    assert b.folds - ({} + {}) == b.folds;
  }

  /** It is real: one line with one block, its fold fails, the scan saves its cursor, and the tool call is never counted. */
  lemma FailedFoldIsLost(rd: Reader, line: seq<Byte>, clock: nat -> int)
    requires Real(rd.decode(line)) && |rd.decode(line).value.tools| == 1 && StampedRecord(rd.decode(line))
    ensures var k := ToolKey(rd.decode(line).value);
            && k !in StepDb(rd, EMPTY, [line], 0, 1, Scan(0, clock, None, {Point(0, 1)}, {})).folds
            && k in StepDb(rd, EMPTY, [line], 0, 1, Sound(clock, None)).folds
  {
    var rec, s := rd.decode(line).value, Scan(0, clock, None, {Point(0, 1)}, {});
    OneBlockOps(rec, rd.host, clock(0), rd.show(clock(0)));
    StepFolds(rd, EMPTY, [line], 0, 1, s, ToolKey(rec));
    StepFolds(rd, EMPTY, [line], 0, 1, Sound(clock, None), ToolKey(rec));
    HeldIsStored(rd, [line], 0, Sound(clock, None), ToolKey(rec));
  }

  /**
   * And a death inside a fold, between its two statements, is not healed by reading again: the dedup row is there,
   * so the tool call of this line is never counted.
   */
  lemma CutFoldIsLost(rd: Reader, line: seq<Byte>, clock: nat -> int, again: nat -> int)
    requires Real(rd.decode(line)) && |rd.decode(line).value.tools| == 1 && StampedRecord(rd.decode(line))
    ensures var sid := rd.decode(line).value.sid;
            var dead := StepDb(rd, EMPTY, [line], 0, 1, Scan(0, clock, Some(Point(0, 2)), {}, {Point(0, 1)}));
            var db := Read(rd, dead, [line], again, None);
            sid in db.rows && db.rows[sid].toolCalls == 0
  {
    var rec, s := rd.decode(line).value, Scan(0, clock, Some(Point(0, 2)), {}, {Point(0, 1)});
    OneBlockOps(rec, rd.host, clock(0), rd.show(clock(0)));
    OneBlockOps(rec, rd.host, again(0), rd.show(again(0)));
    var begun := ScanDb(rd, EMPTY, [line], 0, 0, 1, s);
    assert rec.sid in begun.rows && begun.rows[rec.sid].toolCalls == 0;
    var dead := StepDb(rd, EMPTY, [line], 0, 1, s);
    assert dead == Half(begun, CallsOf(rd, [line], 0, 0, s)[1]);
    var t := Sound(again, None);
    var first := ScanDb(rd, dead, [line], 0, 0, 1, t);
    assert first == Apply(dead, CallsOf(rd, [line], 0, 0, t)[0]);
    assert ScanDb(rd, dead, [line], 0, 0, 2, t) == first;
    assert ScanDb(rd, dead, [line], 0, 1, 0, t) == first;
  }
}
