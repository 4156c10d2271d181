/**
 * What a proxied call does, in words (plugins/peer/mirror.go:19-125): where it goes, what it keeps and stores, and how
 * it marks the peer's liveness row (plugins/peer/store.go:112-138).
 */
module PeerCalls {
  import opened Options
  import opened Text
  import opened Timestamps
  import opened PeerMesh
  import PeerLiveness

  // ---------------------------------------------------------------- where a call goes

  /** The plugin that serves each op; no other op is served. */
  function Serves(op: string): string {
    if op == "issue" || op == "pr" || op == "issueComments" then "github"
    else if op == "freeSlots" || op == "paneForBranch" then "tmux"
    else if op == "claude" then "claude"
    else ""
  }

  /** A request is made to a configured peer alone, for an op some plugin serves, and never to the peer plugin. */
  lemma HopExactly(cfg: Config, op: string, host: string)
    ensures var plugin := if cfg.remotePlugin != "" then cfg.remotePlugin else Serves(op);
            Hop(cfg, op, host) == if host in cfg.peers && plugin != "" && plugin != "peer" then Some(Request(host, plugin, op)) else None
  {}

  // ---------------------------------------------------------------- what a call keeps

  /** The key ends in the host: what follows its last '@', or nothing where there is none. */
  ghost predicate Names(k: string, host: string) {
    if '@' in k then '@' !in host && exists b :: k == b + "@" + host else host == ""
  }

  lemma HostOfExactly(k: string, host: string)
    ensures HostOf(k) == host <==> Names(k, host)
  {
    var at := LastIndexOf(k, '@');
    if at >= 0 {
      assert k == k[..at] + "@" + k[at + 1..];
    }
    if '@' !in host && exists b :: k == b + "@" + host {
      var b :| k == b + "@" + host;
      HostOfSuffixed(b, host);
    }
  }

  /** Both guards, in words. */
  ghost predicate Accepts(cfg: Config, host: string, rn: Remote) { Names(rn.key, host) && host != cfg.hostId }

  lemma KeepExactly(cfg: Config, host: string, rn: Remote)
    ensures Keep(cfg, host, rn) <==> Accepts(cfg, host, rn)
  {
    HostOfExactly(rn.key, host);
  }

  /** What is announced and handed on: the accepted nodes, one by one in the order of the answer. */
  lemma KeptMore(cfg: Config, host: string, rs: seq<Remote>, rn: Remote)
    ensures KeptOf(cfg, host, []) == []
    ensures KeptOf(cfg, host, rs + [rn]) == if Accepts(cfg, host, rn) then KeptOf(cfg, host, rs) + [rn] else KeptOf(cfg, host, rs)
  {
    KeepExactly(cfg, host, rn);
    assert (rs + [rn])[..|rs|] == rs;
    assert KeptOf(cfg, host, rs) + [] == KeptOf(cfg, host, rs);
  }

  // ---------------------------------------------------------------- what a call leaves stored

  /** The last node of an answer with this key. */
  function LastOf(rs: seq<Remote>, k: string): Option<Remote> {
    if rs == [] then None
    else if rs[|rs| - 1].key == k then Some(rs[|rs| - 1])
    else LastOf(rs[..|rs| - 1], k)
  }

  function RowAt(nodes: Nodes, k: string): Option<Row> { if k in nodes then Some(nodes[k]) else None }

  /** The row of a key after the answer's nodes were stored. */
  function RowAfter(cfg: Config, nodes: Nodes, host: string, rs: seq<Remote>, now: string, k: string): Option<Row> {
    if LastOf(rs, k).Some? && HostOf(k) == host && host != cfg.hostId then Some(Row(host, LastOf(rs, k).value.body, now)) else RowAt(nodes, k)
  }

  lemma {:induction false} StoredRow(cfg: Config, nodes: Nodes, host: string, rs: seq<Remote>, now: string, k: string)
    ensures RowAt(StoreKept(cfg, host, nodes, rs, now), k) == RowAfter(cfg, nodes, host, rs, now, k)
    decreases rs
  {
    if rs != [] {
      StoredRow(cfg, nodes, host, rs[..|rs| - 1], now, k);
    }
  }

  lemma PurgedRow(nodes: Nodes, host: string, cutoff: string, k: string)
    ensures var r := RowAt(nodes, k);
            RowAt(PurgeStale(nodes, host, cutoff), k) == if r.Some? && r.value.host == host && LexLess(r.value.seen, cutoff) then None else r
  {}

  /**
   * What a call that reaches its peer leaves of every key: a key of the host, and not of this box, holds the last body
   * answered for it, stamped now; every other row is as it was; and then the host's rows older than the TTL go.
   */
  lemma MirrorRow(cfg: Config, nodes: Nodes, op: string, host: string, rs: seq<Remote>, now: string, cutoff: string, k: string)
    requires Hop(cfg, op, host).Some?
    ensures var last := LastOf(rs, k);
            var row := if last.Some? && Names(k, host) && host != cfg.hostId then Some(Row(host, last.value.body, now)) else RowAt(nodes, k);
            var old' := cfg.ttl > 0 && row.Some? && row.value.host == host && LexLess(row.value.seen, cutoff);
            RowAt(Mirror(cfg, nodes, op, host, Nodes(rs, None), now, cutoff), k) == if old' then None else row
  {
    HostOfExactly(k, host);
    StoredRow(cfg, nodes, host, rs, now, k);
    MirrorPurges(cfg, nodes, op, host, rs, now, cutoff);
    PurgedRow(StoreKept(cfg, host, nodes, rs, now), host, cutoff, k);
  }

  // ---------------------------------------------------------------- how a call marks the peer

  /** The step of the peer's liveness a call is, from its hop and its answer. */
  function CallSteps(cfg: Config, op: string, host: string, answer: Answer, at: int): seq<PeerLiveness.Step> {
    if Hop(cfg, op, host).None? then []
    else
      match answer
      case Failed(unauthorized) => if unauthorized then [PeerLiveness.ProxyRejected(at)] else []
      case Nodes(rs, failAt) => if failAt.Some? && failAt.value < |rs| then [] else [PeerLiveness.ProxySeen(at)]
  }

  method MarkPeer(peer: PeerLiveness.Peer, mark: Mark, at: int, ghost row: PeerLiveness.Row, ghost steps: seq<PeerLiveness.Step>,
                  max: nat, l: PeerLiveness.Loop)
    requires peer.Agrees(row, steps, max, l)
    modifies peer
    ensures mark == MarkSeen ==> peer.Agrees(row, steps + [PeerLiveness.ProxySeen(at)], max, l)
    ensures mark == MarkStale ==> peer.Agrees(row, steps + [PeerLiveness.ProxyRejected(at)], max, l)
    ensures mark == NoMark ==> peer.Agrees(row, steps, max, l)
  {
    match mark
    case NoMark =>
    case MarkSeen =>
      PeerLiveness.RunMore(row, steps, PeerLiveness.ProxySeen(at), max);
      peer.Seen(at, 0);
    case MarkStale =>
      PeerLiveness.RunMore(row, steps, PeerLiveness.ProxyRejected(at), max);
      var trans := peer.Stale(at);
  }

  /** A call as it runs, on the mirror and on the peer's row: the row is that of the steps so far and the call's. */
  method CallPeer(store: Store, peer: PeerLiveness.Peer, cfg: Config, op: string, host: string, answer: Answer, now: string, cutoff: string,
                  at: int, ghost row: PeerLiveness.Row, ghost steps: seq<PeerLiveness.Step>, max: nat, l: PeerLiveness.Loop)
    returns (kept: seq<Remote>)
    requires peer.Agrees(row, steps, max, l)
    modifies store, peer
    ensures store.nodes == Mirror(cfg, old(store.nodes), op, host, answer, now, cutoff)
    ensures peer.Agrees(row, steps + CallSteps(cfg, op, host, answer, at), max, l)
  {
    var emitted, mark, outcome;
    kept, emitted, mark, outcome := store.MirrorOp(cfg, op, host, answer, now, cutoff);
    MarkPeer(peer, mark, at, row, steps, max, l);
    assert steps + [] == steps;
  }
}
