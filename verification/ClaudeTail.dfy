/** plugins/claude/tail.go:67-124, the transcript tail: a byte cursor, partial lines and oversized lines. */
module ClaudeTail {
  import opened Sequences

  newtype Byte = x: int | 0 <= x < 256

  const NEWLINE: Byte := 10

  /** The first newline at or after `pos`, or the length when there is none. */
  function NewlineAt(data: seq<Byte>, pos: nat): (i: nat)
    requires pos <= |data|
    ensures pos <= i <= |data|
    decreases |data| - pos
  {
    if pos == |data| || data[pos] == NEWLINE then pos else NewlineAt(data, pos + 1)
  }

  lemma {:induction false} NewlineFirst(data: seq<Byte>, pos: nat)
    requires pos <= |data|
    ensures var i := NewlineAt(data, pos);
            (i < |data| ==> data[i] == NEWLINE) && forall k :: pos <= k < i ==> data[k] != NEWLINE
    decreases |data| - pos
  {
    if pos < |data| && data[pos] != NEWLINE {
      NewlineFirst(data, pos + 1);
    }
  }

  /** The complete lines of at most `cap` bytes from `pos` on, newlines included. */
  function Lines(data: seq<Byte>, pos: nat, cap: nat): seq<seq<Byte>>
    requires pos <= |data|
    decreases |data| - pos
  {
    var i := NewlineAt(data, pos);
    if i == |data| then []
    else (if i + 1 - pos > cap then [] else [data[pos..i + 1]]) + Lines(data, i + 1, cap)
  }

  /** Just past the last complete line from `pos` on. */
  function End(data: seq<Byte>, pos: nat): (r: nat)
    requires pos <= |data|
    ensures pos <= r <= |data|
    decreases |data| - pos
  {
    var i := NewlineAt(data, pos);
    if i == |data| then pos else End(data, i + 1)
  }

  // ---------------------------------------------------------------- the code

  method ReadLine(data: seq<Byte>, pos: nat, cap: nat) returns (line: seq<Byte>, oversized: bool, consumed: nat, complete: bool)
    requires pos <= |data|
    ensures var i := NewlineAt(data, pos);
            if i == |data| then line == [] && !oversized && consumed == 0 && !complete
            else complete && consumed == i + 1 - pos && oversized == (consumed > cap) &&
                 line == (if oversized then [] else data[pos..i + 1])
  {
    ghost var i := NewlineAt(data, pos);
    NewlineFirst(data, pos);
    line, oversized, consumed, complete := [], false, 0, false;
    while true
      invariant pos + consumed <= i
      invariant oversized == (consumed > cap)
      invariant line == if oversized then [] else data[pos..pos + consumed]
      decreases i - consumed
    {
      if pos + consumed == |data| {
        return [], false, 0, false;
      }
      var b := data[pos + consumed];
      consumed := consumed + 1;
      if !oversized {
        if |line| >= cap {
          oversized, line := true, [];
        } else {
          line := line + [b];
        }
      }
      if b == NEWLINE {
        return line, oversized, consumed, true;
      }
    }
  }

  /** scanFile: the lines folded, in order, and the cursor it saves. */
  method ScanFile(data: seq<Byte>, off: nat, cap: nat) returns (folded: seq<seq<Byte>>, newOff: nat)
    ensures |data| <= off ==> folded == [] && newOff == off
    ensures off < |data| ==> folded == Lines(data, off, cap) && newOff == End(data, off)
  {
    folded, newOff := [], off;
    if |data| <= off {
      return;
    }
    while true
      invariant off <= newOff <= |data|
      invariant folded + Lines(data, newOff, cap) == Lines(data, off, cap)
      invariant End(data, newOff) == End(data, off)
      decreases |data| - newOff
    {
      var line, oversized, consumed, complete := ReadLine(data, newOff, cap);
      if !complete {
        break;
      }
      LineOff(folded, data, newOff, cap);
      newOff := newOff + consumed;
      if oversized {
        continue;
      }
      folded := folded + [line];
    }
  }

  /** Taking the next line off what is left adds it to what is folded, unless it is too long. */
  lemma LineOff(folded: seq<seq<Byte>>, data: seq<Byte>, pos: nat, cap: nat)
    requires pos <= |data| && NewlineAt(data, pos) < |data|
    ensures var i := NewlineAt(data, pos);
            folded + Lines(data, pos, cap) == (if i + 1 - pos > cap then folded else folded + [data[pos..i + 1]]) + Lines(data, i + 1, cap)
  {
    var i := NewlineAt(data, pos);
    Regroup(folded, if i + 1 - pos > cap then [] else [data[pos..i + 1]], Lines(data, i + 1, cap));
  }

  // ---------------------------------------------------------------- what Lines is

  /** Every complete line, however long. */
  function AllLines(data: seq<Byte>, pos: nat): seq<seq<Byte>>
    requires pos <= |data|
    decreases |data| - pos
  {
    var i := NewlineAt(data, pos);
    if i == |data| then [] else [data[pos..i + 1]] + AllLines(data, i + 1)
  }

  function Flat(lines: seq<seq<Byte>>): seq<Byte> {
    if lines == [] then [] else lines[0] + Flat(lines[1..])
  }

  function Short(lines: seq<seq<Byte>>, cap: nat): seq<seq<Byte>> {
    if lines == [] then [] else (if |lines[0]| <= cap then [lines[0]] else []) + Short(lines[1..], cap)
  }

  /** A line ends in its only line feed, byte 10. */
  predicate WholeLine(line: seq<Byte>) { line != [] && line[|line| - 1] == 10 && 10 !in line[..|line| - 1] }

  lemma ShortStep(line: seq<Byte>, rest: seq<seq<Byte>>, cap: nat)
    ensures Short([line] + rest, cap) == (if |line| > cap then [] else [line]) + Short(rest, cap)
  {
    assert ([line] + rest)[1..] == rest;
  }

  lemma FlatStep(line: seq<Byte>, rest: seq<seq<Byte>>, tail: seq<Byte>, whole: seq<Byte>)
    requires tail == Flat(rest) && whole == line + tail
    ensures whole == Flat([line] + rest)
  {
    assert ([line] + rest)[1..] == rest;
  }

  /** The folded lines are the complete ones that fit the cap. */
  lemma {:induction false} LinesAreShort(data: seq<Byte>, pos: nat, cap: nat)
    requires pos <= |data|
    ensures Lines(data, pos, cap) == Short(AllLines(data, pos), cap)
    decreases |data| - pos
  {
    var i := NewlineAt(data, pos);
    if i < |data| {
      LinesAreShort(data, i + 1, cap);
      ShortStep(data[pos..i + 1], AllLines(data, i + 1), cap);
    }
  }

  lemma LineIsWhole(data: seq<Byte>, pos: nat)
    requires pos <= |data| && NewlineAt(data, pos) < |data|
    ensures WholeLine(data[pos..NewlineAt(data, pos) + 1])
  {
    NewlineFirst(data, pos);
  }

  lemma SliceJoin(data: seq<Byte>, a: nat, b: nat, c: nat)
    requires a <= b <= c <= |data|
    ensures data[a..c] == data[a..b] + data[b..c]
  {}

  lemma OneLineMore(line: seq<Byte>, rest: seq<seq<Byte>>)
    requires WholeLine(line) && forall k :: 0 <= k < |rest| ==> WholeLine(rest[k])
    ensures forall k :: 0 <= k < |[line] + rest| ==> WholeLine(([line] + rest)[k])
  {}

  lemma {:induction false} LinesFlat(data: seq<Byte>, pos: nat)
    requires pos <= |data|
    ensures data[pos..End(data, pos)] == Flat(AllLines(data, pos))
    decreases |data| - pos
  {
    var i := NewlineAt(data, pos);
    if i < |data| {
      LinesFlat(data, i + 1);
      var e := End(data, i + 1);
      SliceJoin(data, pos, i + 1, e);
      FlatStep(data[pos..i + 1], AllLines(data, i + 1), data[i + 1..e], data[pos..e]);
    }
  }

  lemma {:induction false} NoneAfter(data: seq<Byte>, pos: nat)
    requires pos <= |data|
    ensures forall k :: End(data, pos) <= k < |data| ==> data[k] != NEWLINE
    decreases |data| - pos
  {
    var i := NewlineAt(data, pos);
    if i == |data| {
      NewlineFirst(data, pos);
    } else {
      NoneAfter(data, i + 1);
    }
  }

  lemma {:induction false} LinesWhole(data: seq<Byte>, pos: nat)
    requires pos <= |data|
    ensures forall k :: 0 <= k < |AllLines(data, pos)| ==> WholeLine(AllLines(data, pos)[k])
    decreases |data| - pos
  {
    var i := NewlineAt(data, pos);
    if i < |data| {
      LinesWhole(data, i + 1);
      LineIsWhole(data, pos);
      OneLineMore(data[pos..i + 1], AllLines(data, i + 1));
    }
  }

  /**
   * The bytes are the complete lines end to end and then a part with no newline; the cursor sits
   * between the two.
   */
  lemma LinesPartition(data: seq<Byte>, pos: nat)
    requires pos <= |data|
    ensures data[pos..End(data, pos)] == Flat(AllLines(data, pos))
    ensures forall k :: End(data, pos) <= k < |data| ==> data[k] != 10
    ensures forall k :: 0 <= k < |AllLines(data, pos)| ==> WholeLine(AllLines(data, pos)[k])
  {
    LinesFlat(data, pos);
    NoneAfter(data, pos);
    LinesWhole(data, pos);
  }

  // ---------------------------------------------------------------- growing files

  /** Reading a longer file is reading the shorter one and then the rest from its cursor. */
  lemma {:induction false} ReadOn(data: seq<Byte>, seen: seq<Byte>, pos: nat, cap: nat)
    requires pos <= |seen| && seen <= data
    ensures Lines(data, pos, cap) == Lines(seen, pos, cap) + Lines(data, End(seen, pos), cap)
    decreases |seen| - pos
  {
    var i := NewlineAt(seen, pos);
    if i < |seen| {
      ReadOn(data, seen, i + 1, cap);
      ReadOnStep(data, seen, pos, cap, Lines(data, End(seen, i + 1), cap));
    }
  }

  lemma ReadOnStep(data: seq<Byte>, seen: seq<Byte>, pos: nat, cap: nat, rest: seq<seq<Byte>>)
    requires pos <= |seen| && seen <= data && NewlineAt(seen, pos) < |seen|
    requires var i := NewlineAt(seen, pos); Lines(data, i + 1, cap) == Lines(seen, i + 1, cap) + rest
    ensures Lines(data, pos, cap) == Lines(seen, pos, cap) + rest
  {
    var i := NewlineAt(seen, pos);
    NewlineSame(data, seen, pos, i);
    assert seen[pos..i + 1] == data[pos..i + 1];
    Regroup(if i + 1 - pos > cap then [] else [data[pos..i + 1]], Lines(seen, i + 1, cap), rest);
  }

  lemma {:induction false} EndOn(data: seq<Byte>, seen: seq<Byte>, pos: nat)
    requires pos <= |seen| && seen <= data
    ensures End(data, pos) == End(data, End(seen, pos))
    decreases |seen| - pos
  {
    var i := NewlineAt(seen, pos);
    if i < |seen| {
      NewlineSame(data, seen, pos, i);
      EndOn(data, seen, i + 1);
    }
  }

  lemma NewlineSame(data: seq<Byte>, seen: seq<Byte>, pos: nat, i: nat)
    requires seen <= data && pos <= i < |seen|
    ensures NewlineAt(seen, pos) == i <==> NewlineAt(data, pos) == i
  {
    NewlineFirst(data, pos);
    NewlineFirst(seen, pos);
  }

  /** A position a scan can have saved: just past the last complete line of what it saw. */
  predicate Boundary(data: seq<Byte>, b: nat) { b <= |data| && End(data[..b], 0) == b }

  lemma {:induction false} EndIsBoundary(seen: seq<Byte>, pos: nat)
    requires pos <= |seen|
    ensures var e := End(seen, pos); End(seen[..e], pos) == e
    decreases |seen| - pos
  {
    var i := NewlineAt(seen, pos);
    var e := End(seen, pos);
    if i < |seen| {
      EndIsBoundary(seen, i + 1);
      NewlineSame(seen, seen[..e], pos, i);
    }
  }

  // ---------------------------------------------------------------- incremental equals batch

  /** The saved cursor and everything handed on, over any sequence of scans. */
  datatype Progress = Progress(cursor: nat, folded: seq<seq<Byte>>)

  function ScanAt(data: seq<Byte>, len: nat, p: Progress, cap: nat): Progress
    requires len <= |data|
  {
    if len <= p.cursor then p
    else Progress(End(data[..len], p.cursor), p.folded + Lines(data[..len], p.cursor, cap))
  }

  function Scans(data: seq<Byte>, lens: seq<nat>, cap: nat): Progress
    requires forall i :: 0 <= i < |lens| ==> lens[i] <= |data|
  {
    if lens == [] then Progress(0, [])
    else ScanAt(data, lens[|lens| - 1], Scans(data, lens[..|lens| - 1], cap), cap)
  }

  function Last(lens: seq<nat>): nat { if lens == [] then 0 else lens[|lens| - 1] }

  predicate Growing(lens: seq<nat>) { forall i, j :: 0 <= i < j < |lens| ==> lens[i] <= lens[j] }

  /**
   * An append-only file scanned at any growing lengths hands on exactly the lines of one batch read of
   * its last length, in order and once each, and the cursor is just past the last complete line seen.
   */
  lemma {:induction false} IncrementalIsBatch(data: seq<Byte>, lens: seq<nat>, cap: nat)
    requires Growing(lens) && forall i :: 0 <= i < |lens| ==> lens[i] <= |data|
    ensures var p, seen := Scans(data, lens, cap), data[..Last(lens)];
            p.cursor == End(seen, 0) && p.folded == Lines(seen, 0, cap)
    decreases lens
  {
    if lens != [] {
      var n := |lens| - 1;
      var init := lens[..n];
      IncrementalIsBatch(data, init, cap);
      var l0, l1 := Last(init), lens[n];
      var seen := data[..l1];
      ReadOn(seen, data[..l0], 0, cap);
      EndOn(seen, data[..l0], 0);
      var p := Scans(data, init, cap);
      if l1 <= p.cursor {
        assert seen == data[..l0];
      }
    } else {
      assert data[..0] == [];
    }
  }

  // ---------------------------------------------------------------- segments

  /** How many lines lie before a position. */
  function CountBefore(data: seq<Byte>, b: nat, cap: nat): nat
    requires b <= |data|
  {
    |Lines(data[..b], 0, cap)|
  }

  /** From a saved cursor, the lines a scan sees are a segment of the file's lines. */
  lemma SegmentOf(data: seq<Byte>, b: nat, len: nat, cap: nat)
    requires Boundary(data, b) && b <= len <= |data|
    ensures var all, lo, hi := Lines(data, 0, cap), CountBefore(data, b, cap), CountBefore(data, len, cap);
            lo <= hi <= |all| && Lines(data[..len], b, cap) == all[lo..hi] && all[..hi] == Lines(data[..len], 0, cap)
    ensures Boundary(data, End(data[..len], b)) && CountBefore(data, End(data[..len], b), cap) == CountBefore(data, len, cap)
  {
    var seen := data[..len];
    assert data[..b] <= seen;
    ReadOn(seen, data[..b], 0, cap);
    ReadOn(data, seen, 0, cap);
    EndOn(seen, data[..b], 0);
    var e := End(seen, 0);
    EndIsBoundary(seen, 0);
    assert seen[..e] == data[..e];
    ReadOn(seen, seen[..e], 0, cap);
    NothingAfterEnd(seen, cap);
    Regroup(Lines(data[..e], 0, cap), [], []);
  }

  lemma NothingAfterEnd(data: seq<Byte>, cap: nat)
    ensures Lines(data, End(data, 0), cap) == []
  {
    LinesPartition(data, 0);
    NewlineFirst(data, End(data, 0));
  }

  lemma CountGrows(data: seq<Byte>, a: nat, b: nat, cap: nat)
    requires a <= b <= |data|
    ensures CountBefore(data, a, cap) <= CountBefore(data, b, cap)
  {
    ReadOn(data[..b], data[..a], 0, cap);
  }
}
