/**
 * plugins/peer/mirror.go:21-125 and plugins/peer/store.go:53-92: the pull-through mirror, its two loop
 * guards and its TTL purge, over any number of boxes and arbitrary remote answers.
 */
module PeerMesh {
  import opened Options
  import opened Text
  import opened Timestamps

  /** hostOf: what follows the last '@', or the empty string. */
  function HostOf(key: string): string {
    var at := LastIndexOf(key, '@');
    if at >= 0 then key[at + 1..] else ""
  }

  /** A suffix put on with '@' is the one read back. */
  lemma HostOfSuffixed(body: string, host: string)
    requires '@' !in host
    ensures HostOf(body + "@" + host) == host
  {
    LastJoined(body, '@', host);
  }

  // ---------------------------------------------------------------- configuration and hops

  /** One box's settings. `ttl` is in nanoseconds; zero keeps rows until they are refreshed. */
  datatype Config = Config(hostId: string, peers: seq<string>, remotePlugin: string, ttl: nat)

  /** opPlugins. */
  const OP_PLUGINS: map<string, string> := map[
    "issue" := "github", "pr" := "github", "issueComments" := "github",
    "freeSlots" := "tmux", "paneForBranch" := "tmux", "claude" := "claude"]

  function TargetPlugin(cfg: Config, op: string): string {
    if cfg.remotePlugin != "" then cfg.remotePlugin
    else if op in OP_PLUGINS then OP_PLUGINS[op] else ""
  }

  /** A request one box makes of another. */
  datatype Request = Request(host: string, plugin: string, op: string)

  /** The one outbound request a mirror makes, if it makes one: to a configured peer, and never to its peer plugin. */
  function Hop(cfg: Config, op: string, host: string): Option<Request> {
    if host !in cfg.peers then None
    else
      var target := TargetPlugin(cfg, op);
      if target == "" || target == "peer" then None else Some(Request(host, target, op))
  }

  // ---------------------------------------------------------------- the mirror

  /** A row of peer_nodes; last_seen_at is RFC3339Nano text, as the column holds it. */
  datatype Row = Row(host: string, body: string, seen: string)

  type Nodes = map<string, Row>

  /** One node of a remote's answer. Nothing is assumed of it. */
  datatype Remote = Remote(key: string, body: string)

  /** How a proxied call ends: an error, or nodes, the store failing at one of them if it does. */
  datatype Answer = Failed(unauthorized: bool) | Nodes(nodes: seq<Remote>, failAt: Option<nat>)

  /** Both loop guards. */
  predicate Keep(cfg: Config, host: string, rn: Remote) { HostOf(rn.key) == host && HostOf(rn.key) != cfg.hostId }

  function StoreKept(cfg: Config, host: string, nodes: Nodes, rs: seq<Remote>, now: string): Nodes {
    if rs == [] then nodes
    else
      var n := |rs| - 1;
      var before := StoreKept(cfg, host, nodes, rs[..n], now);
      if Keep(cfg, host, rs[n]) then before[rs[n].key := Row(host, rs[n].body, now)] else before
  }

  /** The accepted nodes, in order and with repeats: what mirror emits and, when it succeeds, returns. */
  function KeptOf(cfg: Config, host: string, rs: seq<Remote>): seq<Remote> {
    if rs == [] then []
    else KeptOf(cfg, host, rs[..|rs| - 1]) + (if Keep(cfg, host, rs[|rs| - 1]) then [rs[|rs| - 1]] else [])
  }

  /** DELETE FROM peer_nodes WHERE peer_host=? AND last_seen_at < ?, the times compared as text. */
  function PurgeStale(nodes: Nodes, host: string, cutoff: string): Nodes {
    map k | k in nodes && !(nodes[k].host == host && LexLess(nodes[k].seen, cutoff)) :: nodes[k]
  }

  /** The answered nodes that reach the store: all, or those before the failing one. */
  function Reaching(rs: seq<Remote>, failAt: Option<nat>): seq<Remote> {
    if failAt.Some? && failAt.value < |rs| then rs[..failAt.value] else rs
  }

  predicate Failing(rs: seq<Remote>, failAt: Option<nat>) { failAt.Some? && failAt.value < |rs| }

  /** mirror: what the call leaves in peer_nodes. `now` and `cutoff`, which is the TTL earlier, are RFC3339Nano text. */
  function Mirror(cfg: Config, nodes: Nodes, op: string, host: string, answer: Answer, now: string, cutoff: string): Nodes {
    if Hop(cfg, op, host).None? || answer.Failed? then nodes
    else
      var stored := StoreKept(cfg, host, nodes, Reaching(answer.nodes, answer.failAt), now);
      if Failing(answer.nodes, answer.failAt) || cfg.ttl == 0 then stored else PurgeStale(stored, host, cutoff)
  }

  // ---------------------------------------------------------------- the mesh

  datatype Box = Box(cfg: Config, nodes: Nodes)

  type Mesh = map<nat, Box>

  datatype Step = Step(box: nat, op: string, host: string, answer: Answer, now: string, cutoff: string)

  function Next(mesh: Mesh, s: Step): Mesh {
    if s.box !in mesh then mesh
    else
      var b := mesh[s.box];
      mesh[s.box := b.(nodes := Mirror(b.cfg, b.nodes, s.op, s.host, s.answer, s.now, s.cutoff))]
  }

  function Run(mesh: Mesh, steps: seq<Step>): Mesh {
    if steps == [] then mesh else Next(Run(mesh, steps[..|steps| - 1]), steps[|steps| - 1])
  }

  /** A first-hop row: its key's own suffix names the peer it came from, a configured one, never this box. */
  predicate FirstHop(cfg: Config, key: string, row: Row) {
    HostOf(key) == row.host && row.host in cfg.peers && row.host != cfg.hostId
  }

  predicate BoxOk(b: Box) { forall k :: k in b.nodes ==> FirstHop(b.cfg, k, b.nodes[k]) }

  predicate MeshOk(mesh: Mesh) { forall i :: i in mesh ==> BoxOk(mesh[i]) }

  lemma {:induction false} StoreKeptOk(cfg: Config, host: string, nodes: Nodes, rs: seq<Remote>, now: string)
    requires BoxOk(Box(cfg, nodes)) && host in cfg.peers
    ensures BoxOk(Box(cfg, StoreKept(cfg, host, nodes, rs, now)))
    decreases rs
  {
    if rs != [] {
      StoreKeptOk(cfg, host, nodes, rs[..|rs| - 1], now);
    }
  }

  lemma MirrorOk(cfg: Config, nodes: Nodes, s: Step)
    requires BoxOk(Box(cfg, nodes))
    ensures BoxOk(Box(cfg, Mirror(cfg, nodes, s.op, s.host, s.answer, s.now, s.cutoff)))
  {
    if Hop(cfg, s.op, s.host).Some? && s.answer.Nodes? {
      StoreKeptOk(cfg, s.host, nodes, Reaching(s.answer.nodes, s.answer.failAt), s.now);
    }
  }

  /**
   * Loop freedom of the data: from empty mirrors, in every run of every mesh, whatever remotes answer,
   * every mirrored row is a first-hop row of a configured peer that is not the box itself.
   */
  lemma {:induction false} MeshSafe(mesh: Mesh, steps: seq<Step>)
    requires MeshOk(mesh)
    ensures MeshOk(Run(mesh, steps))
    decreases steps
  {
    if steps != [] {
      var n := |steps| - 1;
      MeshSafe(mesh, steps[..n]);
      var before, s := Run(mesh, steps[..n]), steps[n];
      if s.box in before {
        MirrorOk(before[s.box].cfg, before[s.box].nodes, s);
      }
    }
  }

  /** nodesForHost, which filters on peer_host, returns exactly the rows whose key names the host. */
  lemma WarmReadExact(b: Box, host: string)
    requires BoxOk(b)
    ensures (set k | k in b.nodes && b.nodes[k].host == host) == (set k | k in b.nodes && HostOf(k) == host)
  {}

  // ---------------------------------------------------------------- isolation of peers

  /** Two mirrors hold the same rows for every key that is not of `host`. */
  ghost predicate SameElsewhere(a: Nodes, b: Nodes, host: string) {
    forall k :: HostOf(k) != host ==> (k in a <==> k in b) && (k in a ==> a[k] == b[k])
  }

  lemma {:induction false} StoreElsewhere(cfg: Config, host: string, nodes: Nodes, rs: seq<Remote>, now: string)
    ensures SameElsewhere(nodes, StoreKept(cfg, host, nodes, rs, now), host)
    decreases rs
  {
    if rs != [] {
      StoreElsewhere(cfg, host, nodes, rs[..|rs| - 1], now);
    }
  }

  lemma PurgeElsewhere(cfg: Config, nodes: Nodes, host: string, cutoff: string)
    requires BoxOk(Box(cfg, nodes))
    ensures SameElsewhere(nodes, PurgeStale(nodes, host, cutoff), host)
  {
    forall k | HostOf(k) != host && k in nodes ensures k in PurgeStale(nodes, host, cutoff) {
      assert FirstHop(cfg, k, nodes[k]);
    }
  }

  /** A mirror or TTL purge for one host never adds, changes or deletes a row of another. */
  lemma PeersIsolated(cfg: Config, nodes: Nodes, s: Step)
    requires BoxOk(Box(cfg, nodes))
    ensures SameElsewhere(nodes, Mirror(cfg, nodes, s.op, s.host, s.answer, s.now, s.cutoff), s.host)
  {
    if Hop(cfg, s.op, s.host).Some? && s.answer.Nodes? {
      var rs := Reaching(s.answer.nodes, s.answer.failAt);
      StoreElsewhere(cfg, s.host, nodes, rs, s.now);
      StoreKeptOk(cfg, s.host, nodes, rs, s.now);
      PurgeElsewhere(cfg, StoreKept(cfg, s.host, nodes, rs, s.now), s.host, s.cutoff);
    }
  }

  /** Over whole runs: what a box holds for one host is decided by that box's calls for that host alone. */
  predicate Concerns(s: Step, box: nat, host: string) { s.box == box && s.host == host }

  function Project(steps: seq<Step>, box: nat, host: string): seq<Step> {
    if steps == [] then []
    else
      var n := |steps| - 1;
      Project(steps[..n], box, host) + (if Concerns(steps[n], box, host) then [steps[n]] else [])
  }

  /** The rows of one host. */
  function Part(nodes: Nodes, host: string): Nodes { map k | k in nodes && HostOf(k) == host :: nodes[k] }

  lemma {:induction false} StorePart(cfg: Config, host: string, a: Nodes, b: Nodes, rs: seq<Remote>, now: string)
    requires Part(a, host) == Part(b, host)
    ensures Part(StoreKept(cfg, host, a, rs, now), host) == Part(StoreKept(cfg, host, b, rs, now), host)
    decreases rs
  {
    if rs != [] {
      var n := |rs| - 1;
      StorePart(cfg, host, a, b, rs[..n], now);
      if Keep(cfg, host, rs[n]) {
        PartPut(StoreKept(cfg, host, a, rs[..n], now), host, rs[n].key, Row(host, rs[n].body, now));
        PartPut(StoreKept(cfg, host, b, rs[..n], now), host, rs[n].key, Row(host, rs[n].body, now));
      }
    }
  }

  lemma PartPut(a: Nodes, host: string, k: string, r: Row)
    requires HostOf(k) == host
    ensures Part(a[k := r], host) == Part(a, host)[k := r]
  {}

  lemma PurgePart(a: Nodes, b: Nodes, host: string, cutoff: string)
    requires Part(a, host) == Part(b, host)
    ensures Part(PurgeStale(a, host, cutoff), host) == Part(PurgeStale(b, host, cutoff), host)
  {
    PartOfPurge(a, host, cutoff);
    PartOfPurge(b, host, cutoff);
  }

  lemma PartOfPurge(a: Nodes, host: string, cutoff: string)
    ensures Part(PurgeStale(a, host, cutoff), host) == PurgeStale(Part(a, host), host, cutoff)
  {}

  lemma MirrorPart(cfg: Config, a: Nodes, b: Nodes, s: Step)
    requires Part(a, s.host) == Part(b, s.host)
    ensures Part(Mirror(cfg, a, s.op, s.host, s.answer, s.now, s.cutoff), s.host) ==
            Part(Mirror(cfg, b, s.op, s.host, s.answer, s.now, s.cutoff), s.host)
  {
    if Hop(cfg, s.op, s.host).Some? && s.answer.Nodes? {
      var rs := Reaching(s.answer.nodes, s.answer.failAt);
      StorePart(cfg, s.host, a, b, rs, s.now);
      PurgePart(StoreKept(cfg, s.host, a, rs, s.now), StoreKept(cfg, s.host, b, rs, s.now), s.host, s.cutoff);
    }
  }

  lemma ElsewherePart(a: Nodes, b: Nodes, host: string, other: string)
    requires SameElsewhere(a, b, other) && host != other
    ensures Part(a, host) == Part(b, host)
  {}

  lemma {:induction false} BoxesStay(mesh: Mesh, steps: seq<Step>, box: nat)
    ensures box in Run(mesh, steps) <==> box in mesh
    ensures box in mesh ==> Run(mesh, steps)[box].cfg == mesh[box].cfg
    decreases steps
  {
    if steps != [] {
      BoxesStay(mesh, steps[..|steps| - 1], box);
    }
  }

  lemma {:induction false} HostDecidesAlone(mesh: Mesh, steps: seq<Step>, box: nat, host: string)
    requires MeshOk(mesh) && box in mesh
    ensures box in Run(mesh, steps) && box in Run(mesh, Project(steps, box, host))
    ensures Part(Run(mesh, steps)[box].nodes, host) == Part(Run(mesh, Project(steps, box, host))[box].nodes, host)
    decreases steps
  {
    BoxesStay(mesh, steps, box);
    BoxesStay(mesh, Project(steps, box, host), box);
    if steps != [] {
      var n := |steps| - 1;
      HostDecidesAlone(mesh, steps[..n], box, host);
      MeshSafe(mesh, steps[..n]);
      BoxesStay(mesh, steps[..n], box);
      var before, s := Run(mesh, steps[..n]), steps[n];
      var alone := Project(steps[..n], box, host);
      BoxesStay(mesh, alone, box);
      if Concerns(s, box, host) {
        assert (alone + [s])[..|alone|] == alone;
        MirrorPart(mesh[box].cfg, before[box].nodes, Run(mesh, alone)[box].nodes, s);
      } else {
        assert alone + [] == alone;
        if s.box == box {
          PeersIsolated(before[box].cfg, before[box].nodes, s);
          ElsewherePart(before[box].nodes, Next(before, s)[box].nodes, host, s.host);
        }
      }
    }
  }

  // ---------------------------------------------------------------- what a refresh leaves

  predicate FreshAt(m: Nodes, key: string, host: string, now: string) { key in m && m[key].host == host && m[key].seen == now }

  lemma PutFresh(m: Nodes, key: string, k: string, host: string, body: string, now: string)
    requires FreshAt(m, key, host, now) || k == key
    ensures FreshAt(m[k := Row(host, body, now)], key, host, now)
  {}

  lemma {:induction false} StoredFresh(cfg: Config, host: string, nodes: Nodes, rs: seq<Remote>, now: string, i: nat)
    requires i < |rs| && Keep(cfg, host, rs[i])
    ensures FreshAt(StoreKept(cfg, host, nodes, rs, now), rs[i].key, host, now)
    decreases rs
  {
    var n := |rs| - 1;
    var last := rs[n];
    if i < n {
      assert rs[..n][i] == rs[i];
      StoredFresh(cfg, host, nodes, rs[..n], now, i);
    }
    if Keep(cfg, host, last) {
      PutFresh(StoreKept(cfg, host, nodes, rs[..n], now), rs[i].key, last.key, host, last.body, now);
    }
  }

  /** What the purge at the end of a refresh does to one of its rows. */
  lemma PurgedFresh(m: Nodes, key: string, host: string, now: string, cutoff: string)
    requires FreshAt(m, key, host, now)
    ensures key in PurgeStale(m, host, cutoff) <==> !LexLess(now, cutoff)
    ensures key in PurgeStale(m, host, cutoff) ==> PurgeStale(m, host, cutoff)[key].seen == now
  {}

  lemma MirrorPurges(cfg: Config, nodes: Nodes, op: string, host: string, rs: seq<Remote>, now: string, cutoff: string)
    requires Hop(cfg, op, host).Some?
    ensures var stored := StoreKept(cfg, host, nodes, rs, now);
            Mirror(cfg, nodes, op, host, Nodes(rs, None), now, cutoff) == if cfg.ttl == 0 then stored else PurgeStale(stored, host, cutoff)
  {}

  /** With no TTL, or one of a second or more, a refresh keeps every row it accepted. */
  lemma RefreshKeepsWhatItWrote(cfg: Config, nodes: Nodes, op: string, host: string, rs: seq<Remote>, now: Civil,
                                cutoff: Civil, i: nat)
    requires Valid(now) && Valid(cutoff) && Instant(cutoff) == Instant(now) - cfg.ttl
    requires cfg.ttl == 0 || cfg.ttl >= SECOND
    requires Hop(cfg, op, host).Some? && i < |rs| && Keep(cfg, host, rs[i])
    ensures var m := Mirror(cfg, nodes, op, host, Nodes(rs, None), Stamp(now), Stamp(cutoff));
            rs[i].key in m && m[rs[i].key].seen == Stamp(now)
  {
    var text, before := Stamp(now), Stamp(cutoff);
    StoredFresh(cfg, host, nodes, rs, text, i);
    MirrorPurges(cfg, nodes, op, host, rs, text, before);
    if cfg.ttl > 0 {
      SecondApart(cutoff, now);
      PurgedFresh(StoreKept(cfg, host, nodes, rs, text), rs[i].key, host, text, before);
    }
  }

  /** None of the accepted rows is left. */
  ghost predicate Lost(cfg: Config, host: string, rs: seq<Remote>, m: Nodes) {
    forall i :: 0 <= i < |rs| && Keep(cfg, host, rs[i]) ==> rs[i].key !in m
  }

  /** Any shorter TTL loses, at some moment, every row of the refresh that wrote it. */
  lemma ShortTtlLosesRefresh(cfg: Config, nodes: Nodes, op: string, host: string, rs: seq<Remote>)
    requires 0 < cfg.ttl < SECOND && Hop(cfg, op, host).Some?
    ensures exists now, cutoff :: (
              && Valid(now) && Valid(cutoff) && Instant(cutoff) == Instant(now) - cfg.ttl
              && Lost(cfg, host, rs, Mirror(cfg, nodes, op, host, Nodes(rs, None), Stamp(now), Stamp(cutoff))))
  {
    ShortWindowEvictsFresh(cfg.ttl);
    var now, cutoff :| Valid(now) && Valid(cutoff) && Instant(now) - Instant(cutoff) == cfg.ttl && LexLess(Stamp(now), Stamp(cutoff));
    LosesAll(cfg, host, nodes, rs, Stamp(now), Stamp(cutoff));
    MirrorPurges(cfg, nodes, op, host, rs, Stamp(now), Stamp(cutoff));
  }

  lemma LosesAll(cfg: Config, host: string, nodes: Nodes, rs: seq<Remote>, now: string, cutoff: string)
    requires LexLess(now, cutoff)
    ensures Lost(cfg, host, rs, PurgeStale(StoreKept(cfg, host, nodes, rs, now), host, cutoff))
  {
    var stored := StoreKept(cfg, host, nodes, rs, now);
    forall i | 0 <= i < |rs| && Keep(cfg, host, rs[i]) ensures rs[i].key !in PurgeStale(stored, host, cutoff) {
      StoredFresh(cfg, host, nodes, rs, now, i);
      PurgedFresh(stored, rs[i].key, host, now, cutoff);
    }
  }

  // ---------------------------------------------------------------- the store as it runs

  datatype Outcome = NoHop | Unreachable | Rejected | StoreError | Mirrored

  /** What mirror does to the host's row of peer_state. */
  datatype Mark = NoMark | MarkSeen | MarkStale

  /** How a call ends, from the hop and the answer. */
  function OutcomeOf(cfg: Config, op: string, host: string, answer: Answer): Outcome {
    if Hop(cfg, op, host).None? then NoHop
    else
      match answer
      case Failed(unauthorized) => if unauthorized then Rejected else Unreachable
      case Nodes(rs, failAt) => if Failing(rs, failAt) then StoreError else Mirrored
  }

  /** The rows that reach the store, and are announced, one by one. */
  function Accepted(cfg: Config, op: string, host: string, answer: Answer): seq<Remote> {
    if Hop(cfg, op, host).None? || answer.Failed? then [] else KeptOf(cfg, host, Reaching(answer.nodes, answer.failAt))
  }

  class Store {
    var nodes: Nodes

    constructor ()
      ensures nodes == map[]
    {
      nodes := map[];
    }

    method UpsertNode(key: string, row: Row)
      modifies this
      ensures nodes == old(nodes)[key := row]
    {
      nodes := nodes[key := row];
    }

    /** The loop of mirror over the answer: each accepted node is stored, then announced and kept. */
    method StoreAnswer(cfg: Config, host: string, rs: seq<Remote>, now: string) returns (kept: seq<Remote>)
      modifies this
      ensures nodes == StoreKept(cfg, host, old(nodes), rs, now)
      ensures kept == KeptOf(cfg, host, rs)
    {
      kept := [];
      for i := 0 to |rs|
        invariant nodes == StoreKept(cfg, host, old(nodes), rs[..i], now)
        invariant kept == KeptOf(cfg, host, rs[..i])
      {
        assert rs[..i + 1][..i] == rs[..i];
        var kh := HostOf(rs[i].key);
        if kh != host || kh == cfg.hostId {
          continue;
        }
        UpsertNode(rs[i].key, Row(host, rs[i].body, now));
        kept := kept + [rs[i]];
      }
      assert rs[..|rs|] == rs;
    }

    method MirrorOp(cfg: Config, op: string, host: string, answer: Answer, now: string, cutoff: string)
      returns (kept: seq<Remote>, emitted: seq<Remote>, mark: Mark, outcome: Outcome)
      modifies this
      ensures nodes == Mirror(cfg, old(nodes), op, host, answer, now, cutoff)
      ensures outcome == OutcomeOf(cfg, op, host, answer)
      ensures emitted == Accepted(cfg, op, host, answer)
      ensures kept == if outcome == Mirrored then emitted else []
      ensures mark == MarkStale <==> Hop(cfg, op, host).Some? && answer.Failed? && answer.unauthorized
      ensures mark == MarkSeen <==> Hop(cfg, op, host).Some? && answer.Nodes? && (answer.failAt.Some? ==> answer.failAt.value >= |answer.nodes|)
      ensures outcome == Rejected <==> mark == MarkStale
      ensures outcome == Mirrored <==> mark == MarkSeen
      ensures outcome == Unreachable <==> Hop(cfg, op, host).Some? && answer.Failed? && !answer.unauthorized
      ensures Hop(cfg, op, host).None? ==> nodes == old(nodes) && outcome == NoHop && mark == NoMark && emitted == [] && kept == []
    {
      kept, emitted, mark := [], [], NoMark;
      if host !in cfg.peers {
        outcome := NoHop;
        return;
      }
      var target := TargetPlugin(cfg, op);
      if target == "" || target == "peer" {
        outcome := NoHop;
        return;
      }
      if answer.Failed? {
        outcome := Unreachable;
        if answer.unauthorized {
          mark, outcome := MarkStale, Rejected;
        }
        return;
      }
      emitted := StoreAnswer(cfg, host, Reaching(answer.nodes, answer.failAt), now);
      if Failing(answer.nodes, answer.failAt) {
        outcome := StoreError;
        return;
      }
      kept, mark, outcome := emitted, MarkSeen, Mirrored;
      if cfg.ttl > 0 {
        nodes := PurgeStale(nodes, host, cutoff);
      }
    }
  }
}
