/**
 * Concurrent mirrors of one box: plugins/peer/mirror.go:32-88 runs in HTTP handlers that hold no lock, so the
 * upserts of one call and the TTL purge of another interleave in any order.
 */
module PeerRace {
  import opened Options
  import opened Text
  import opened Timestamps
  import opened PeerMesh

  /** A call whose answer has arrived: `now` and `cutoff` are read once, then the nodes before `i` are done. */
  datatype Call = Call(host: string, rs: seq<Remote>, now: string, cutoff: string, i: nat)

  datatype World = World(cfg: Config, nodes: Nodes, calls: map<nat, Call>)

  datatype Move =
    | Begin(id: nat, op: string, host: string, rs: seq<Remote>, now: string, cutoff: string)
    | Put(id: nat)     // the loop body for the next node
    | Fail(id: nat)    // its upsert fails and the call ends
    | Finish(id: nat)  // the loop is over: the purge

  predicate Putting(w: World, id: nat) { id in w.calls && w.calls[id].i < |w.calls[id].rs| }

  predicate Finishing(w: World, id: nat) { id in w.calls && w.calls[id].i >= |w.calls[id].rs| }

  function PutNext(w: World, id: nat): World
    requires Putting(w, id)
  {
    var c := w.calls[id];
    var rn := c.rs[c.i];
    w.(nodes := if Keep(w.cfg, c.host, rn) then w.nodes[rn.key := Row(c.host, rn.body, c.now)] else w.nodes,
       calls := w.calls[id := c.(i := c.i + 1)])
  }

  function FinishCall(w: World, id: nat): World
    requires Finishing(w, id)
  {
    var c := w.calls[id];
    w.(nodes := if w.cfg.ttl == 0 then w.nodes else PurgeStale(w.nodes, c.host, c.cutoff), calls := w.calls - {id})
  }

  /** A move that does not fit does nothing. */
  function Next(w: World, m: Move): World {
    match m
    case Begin(id, op, host, rs, now, cutoff) =>
      if id in w.calls || Hop(w.cfg, op, host).None? then w else w.(calls := w.calls[id := Call(host, rs, now, cutoff, 0)])
    case Put(id) => if Putting(w, id) then PutNext(w, id) else w
    case Fail(id) => if Putting(w, id) then w.(calls := w.calls - {id}) else w
    case Finish(id) => if Finishing(w, id) then FinishCall(w, id) else w
  }

  function Run(w: World, moves: seq<Move>): World
    decreases moves
  {
    if moves == [] then w else Run(Next(w, moves[0]), moves[1..])
  }

  // ---------------------------------------------------------------- safety under every interleaving

  predicate Ok(w: World) {
    && BoxOk(Box(w.cfg, w.nodes))
    && (forall id :: id in w.calls ==> w.calls[id].host in w.cfg.peers)
  }

  lemma StepOk(w: World, m: Move)
    requires Ok(w)
    ensures Ok(Next(w, m)) && Next(w, m).cfg == w.cfg
  {}

  /** However calls interleave, every mirrored row is a first-hop row of a configured peer that is not the box itself. */
  lemma {:induction false} RaceSafe(w: World, moves: seq<Move>)
    requires Ok(w)
    ensures Ok(Run(w, moves)) && Run(w, moves).cfg == w.cfg
    decreases moves
  {
    if moves != [] {
      StepOk(w, moves[0]);
      RaceSafe(Next(w, moves[0]), moves[1..]);
    }
  }

  /** The host a move writes for, if it writes. */
  function HostFor(w: World, m: Move): Option<string> {
    if (m.Put? && Putting(w, m.id)) || (m.Finish? && Finishing(w, m.id)) then Some(w.calls[m.id].host) else None
  }

  /** A move of one host's call never adds, changes or deletes a row of another host. */
  lemma MovesIsolated(w: World, m: Move, host: string)
    requires Ok(w) && HostFor(w, m) != Some(host)
    ensures Part(Next(w, m).nodes, host) == Part(w.nodes, host)
  {
    if m.Finish? && Finishing(w, m.id) {
      var c := w.calls[m.id];
      PurgeElsewhere(w.cfg, w.nodes, c.host, c.cutoff);
      ElsewherePart(w.nodes, PurgeStale(w.nodes, c.host, c.cutoff), host, c.host);
    }
  }

  // ---------------------------------------------------------------- what happens to a row just written

  /** The move stores the row of this key. */
  predicate Writes(w: World, m: Move, k: string) {
    m.Put? && Putting(w, m.id) &&
    var c := w.calls[m.id];
    Keep(w.cfg, c.host, c.rs[c.i]) && c.rs[c.i].key == k
  }

  /** The move is the purge of a call for the host whose cutoff is past the time. */
  predicate Takes(w: World, m: Move, host: string, seen: string) {
    m.Finish? && Finishing(w, m.id) && w.cfg.ttl > 0 && w.calls[m.id].host == host && LexLess(seen, w.calls[m.id].cutoff)
  }

  predicate NeverWritten(w: World, moves: seq<Move>, k: string)
    decreases moves
  {
    moves == [] || (!Writes(w, moves[0], k) && NeverWritten(Next(w, moves[0]), moves[1..], k))
  }

  predicate EverTaken(w: World, moves: seq<Move>, host: string, seen: string)
    decreases moves
  {
    moves != [] && (Takes(w, moves[0], host, seen) || EverTaken(Next(w, moves[0]), moves[1..], host, seen))
  }

  lemma PurgeAt(nodes: Nodes, host: string, cutoff: string, k: string)
    requires k in nodes
    ensures k in PurgeStale(nodes, host, cutoff) <==> !(nodes[k].host == host && LexLess(nodes[k].seen, cutoff))
    ensures k in PurgeStale(nodes, host, cutoff) ==> PurgeStale(nodes, host, cutoff)[k] == nodes[k]
  {}

  lemma StepOnRow(w: World, m: Move, k: string)
    requires k in w.nodes && !Writes(w, m, k)
    ensures k in Next(w, m).nodes <==> !Takes(w, m, w.nodes[k].host, w.nodes[k].seen)
    ensures k in Next(w, m).nodes ==> Next(w, m).nodes[k] == w.nodes[k]
  {
    if m.Finish? && Finishing(w, m.id) {
      PurgeAt(w.nodes, w.calls[m.id].host, w.calls[m.id].cutoff, k);
    }
  }

  lemma {:induction false} GoneStays(w: World, moves: seq<Move>, k: string)
    requires k !in w.nodes && NeverWritten(w, moves, k)
    ensures k !in Run(w, moves).nodes
    decreases moves
  {
    if moves != [] {
      GoneStays(Next(w, moves[0]), moves[1..], k);
    }
  }

  /**
   * From any moment, through any moves that do not store the row again, a row is still there if and only if no
   * purge of a call for its host came whose cutoff is past the row's time; and then it is unchanged.
   */
  lemma {:induction false} RowStaysExactly(w: World, moves: seq<Move>, k: string)
    requires k in w.nodes && NeverWritten(w, moves, k)
    ensures k in Run(w, moves).nodes <==> !EverTaken(w, moves, w.nodes[k].host, w.nodes[k].seen)
    ensures k in Run(w, moves).nodes ==> Run(w, moves).nodes[k] == w.nodes[k]
    decreases moves
  {
    if moves != [] {
      StepOnRow(w, moves[0], k);
      if Takes(w, moves[0], w.nodes[k].host, w.nodes[k].seen) {
        GoneStays(Next(w, moves[0]), moves[1..], k);
      } else {
        RowStaysExactly(Next(w, moves[0]), moves[1..], k);
      }
    }
  }

  /**
   * In moments: a purge at `at` spares a row stamped `seen` up to a second before its TTL is over, and takes it
   * from a second after.
   */
  lemma TakesWithinSecond(seen: Civil, at: Civil, cutoff: Civil, ttl: nat)
    requires Valid(seen) && Valid(at) && Valid(cutoff) && Instant(cutoff) == Instant(at) - ttl
    ensures Instant(at) + SECOND <= Instant(seen) + ttl ==> !LexLess(Stamp(seen), Stamp(cutoff))
    ensures Instant(at) >= Instant(seen) + ttl + SECOND ==> LexLess(Stamp(seen), Stamp(cutoff))
  {
    CutoffWithinSecond(seen, cutoff);
  }

  // ---------------------------------------------------------------- a call alone is the mirror

  function Puts(id: nat, n: nat): (r: seq<Move>)
    ensures |r| == n
  {
    if n == 0 then [] else [Put(id)] + Puts(id, n - 1)
  }

  lemma {:induction false} RunConcat(w: World, a: seq<Move>, b: seq<Move>)
    ensures Run(w, a + b) == Run(Run(w, a), b)
    decreases a
  {
    if a == [] {
      assert a + b == b;
    } else {
      RunConcat(Next(w, a[0]), a[1..], b);
      assert (a + b)[1..] == a[1..] + b;
    }
  }

  /** A call part way through its answer, alone: what it stored on top of `first`. */
  predicate PartWay(w: World, id: nat, c: Call, first: Nodes) {
    && id in w.calls && w.calls[id] == c && c.i <= |c.rs|
    && w.nodes == StoreKept(w.cfg, c.host, first, c.rs[..c.i], c.now)
  }

  lemma PutOne(w: World, id: nat, c: Call, first: Nodes)
    requires PartWay(w, id, c, first) && c.i < |c.rs|
    ensures PartWay(PutNext(w, id), id, c.(i := c.i + 1), first)
  {
    assert c.rs[..c.i + 1][..c.i] == c.rs[..c.i];
  }

  lemma {:induction false} PutsAlone(w: World, id: nat, n: nat, c: Call, first: Nodes)
    requires PartWay(w, id, c, first) && c.i + n == |c.rs|
    ensures PartWay(Run(w, Puts(id, n)), id, c.(i := |c.rs|), first) && Run(w, Puts(id, n)).cfg == w.cfg
    decreases n
  {
    if n > 0 {
      PutOne(w, id, c, first);
      assert Puts(id, n)[1..] == Puts(id, n - 1);
      PutsAlone(PutNext(w, id), id, n - 1, c.(i := c.i + 1), first);
    }
  }

  /** A call that nothing disturbs leaves what `Mirror` says. */
  lemma CallAlone(w: World, id: nat, op: string, host: string, rs: seq<Remote>, now: string, cutoff: string)
    requires id !in w.calls && Hop(w.cfg, op, host).Some?
    ensures Run(w, [Begin(id, op, host, rs, now, cutoff)] + Puts(id, |rs|) + [Finish(id)]).nodes
            == Mirror(w.cfg, w.nodes, op, host, Nodes(rs, None), now, cutoff)
  {
    var begin, w1 := [Begin(id, op, host, rs, now, cutoff)], w.(calls := w.calls[id := Call(host, rs, now, cutoff, 0)]);
    RunConcat(w, begin + Puts(id, |rs|), [Finish(id)]);
    RunConcat(w, begin, Puts(id, |rs|));
    assert begin[1..] == [] && [Finish(id)][1..] == [];
    assert rs[..0] == [] && rs[..|rs|] == rs;
    PutsAlone(w1, id, |rs|, w1.calls[id], w.nodes);
    var w2 := Run(w1, Puts(id, |rs|));
    assert Run(w2, [Finish(id)]) == Next(w2, Finish(id));
    MirrorPurges(w.cfg, w.nodes, op, host, rs, now, cutoff);
  }

  // ---------------------------------------------------------------- the races are real

  /**
   * A slow call stores a row, and a later call's purge takes it at once: the row carries the time of the
   * answer, not of the store.
   */
  lemma FreshRowTaken(w: World, a: nat, b: nat, rn: Remote)
    requires Putting(w, a) && w.calls[a].rs[w.calls[a].i] == rn && Keep(w.cfg, w.calls[a].host, rn)
    requires a != b && Finishing(w, b) && w.calls[b].host == w.calls[a].host && w.cfg.ttl > 0
    requires LexLess(w.calls[a].now, w.calls[b].cutoff)
    ensures rn.key in Next(w, Put(a)).nodes && rn.key !in Run(w, [Put(a), Finish(b)]).nodes
  {
    var w1 := Next(w, Put(a));
    StepOnRow(w1, Finish(b), rn.key);
    assert [Put(a), Finish(b)][1..] == [Finish(b)] && [Finish(b)][1..] == [];
    assert Run(w1, [Finish(b)]) == Next(w1, Finish(b));
  }

  /** And an older answer stored late replaces a newer row of the same key. */
  lemma OlderReplacesNewer(w: World, a: nat, b: nat, k: string)
    requires a != b && Putting(w, a) && Putting(w, b) && Writes(w, Put(a), k) && Writes(w, Put(b), k)
    ensures var w2 := Run(w, [Put(b), Put(a)]); k in w2.nodes && w2.nodes[k].seen == w.calls[a].now
  {
    assert [Put(b), Put(a)][1..] == [Put(a)] && [Put(a)][1..] == [];
    assert Run(Next(w, Put(b)), [Put(a)]) == Next(Next(w, Put(b)), Put(a));
  }

  /** A call whose store fails part way leaves what it had stored, and no purge. */
  lemma CallFailing(w: World, id: nat, op: string, host: string, rs: seq<Remote>, now: string, cutoff: string, n: nat)
    requires id !in w.calls && Hop(w.cfg, op, host).Some? && n < |rs|
    ensures Run(w, [Begin(id, op, host, rs, now, cutoff)] + Puts(id, n) + [Fail(id)])
            == w.(nodes := Mirror(w.cfg, w.nodes, op, host, Nodes(rs, Some(n)), now, cutoff))
  {
    var c := Call(host, rs, now, cutoff, 0);
    var begin, w1 := [Begin(id, op, host, rs, now, cutoff)], w.(calls := w.calls[id := c]);
    RunConcat(w, begin + Puts(id, n), [Fail(id)]);
    RunConcat(w, begin, Puts(id, n));
    assert begin[1..] == [] && [Fail(id)][1..] == [];
    assert rs[..0] == [];
    PutsSome(w1, id, n, c, w.nodes);
    var w2 := Run(w1, Puts(id, n));
    assert Run(w2, [Fail(id)]) == Next(w2, Fail(id));
    assert w2.calls - {id} == w.calls;
  }

  lemma {:induction false} PutsSome(w: World, id: nat, n: nat, c: Call, first: Nodes)
    requires PartWay(w, id, c, first) && c.i + n <= |c.rs|
    ensures PartWay(Run(w, Puts(id, n)), id, c.(i := c.i + n), first) && Run(w, Puts(id, n)).cfg == w.cfg
    ensures Run(w, Puts(id, n)).calls - {id} == w.calls - {id}
    decreases n
  {
    if n > 0 {
      PutOne(w, id, c, first);
      assert Puts(id, n)[1..] == Puts(id, n - 1);
      assert PutNext(w, id).calls - {id} == w.calls - {id};
      PutsSome(PutNext(w, id), id, n - 1, c.(i := c.i + 1), first);
    }
  }
}
