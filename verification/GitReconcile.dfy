/** plugins/git/reconcile.go and plugins/git/store.go: one reconcile pass over the tables. */
module GitReconcile {
  import opened Options
  import opened Text
  import opened GitPorcelain

  type Time = int

  // ---------------------------------------------------------------- rows, events, inputs

  /** The fields a subscriber keys on. */
  datatype Visible = Visible(branch: Option<string>, head: string, detached: bool, ahead: Option<int>, behind: Option<int>)

  datatype Node = Node(key: string, hostId: string, repoKey: string, repoSlug: string, path: string, vis: Visible)

  /** A row of git_worktrees; `stale` is stale_since. */
  datatype Row = Row(hostId: string, repoKey: string, path: string, vis: Visible, lastSeen: Time, stale: Option<Time>)

  datatype Repo = Repo(hostId: string, slug: string, root: string, lastSeen: Time)

  datatype Event = Updated(node: Node) | Removed(gone: string)

  datatype Failure = RepoFailed(root: string) | TreeFailed(root: string, key: string) | MarkFailed(root: string)

  /** How the stale-marking call ends: it may stop with an error after the first `done` updates. */
  datatype MarkOutcome = Marked | Stopped(done: nat)

  /** What git and the store answer for one root during one pass. */
  datatype RootPoll = RootPoll(
    root: string,
    listing: Option<string>,              // `git worktree list --porcelain`, None when git fails
    slug: string,                         // RepoSlug of the remote and the root
    repoOk: bool,                         // upsertRepo succeeds
    treeOk: nat -> bool,                  // the i-th listed worktree's upsert succeeds
    revList: string -> Option<string>,    // `git rev-list --left-right --count` run in a path
    mark: MarkOutcome)

  /** hostID, and filepath.Clean as the operating system computes it. */
  datatype Config = Config(hostId: string, clean: string -> string)

  /**
   * The two tables, the hash gate and everything emitted so far. `order` is the insertion order
   * of git_worktrees, in which the indexed scan of one repo returns its rows.
   */
  datatype Git = Git(
    repos: map<string, Repo>, order: seq<string>, rows: map<string, Row>,
    hashes: map<string, string>, events: seq<Event>)

  const EMPTY := Git(map[], [], map[], map[], [])

  // ---------------------------------------------------------------- the hash gate

  function PtrStr(p: Option<int>): string {
    if p.None? then "" else Itoa(p.value)
  }

  function PtrStrBranch(p: Option<string>): string {
    if p.None? then "\0nil" else p.value
  }

  function BoolStr(b: bool): string {
    if b then "true" else "false"
  }

  function WorktreeHash(v: Visible): string {
    PtrStrBranch(v.branch) + "|" + v.head + "|" + BoolStr(v.detached) + "|" + PtrStr(v.ahead) + "|" + PtrStr(v.behind)
  }

  // ---------------------------------------------------------------- building a node

  function BranchPtr(branch: string): Option<string> {
    if branch == "" then None else Some(branch)
  }

  function RepoKey(cfg: Config, root: string): string { cfg.hostId + ":" + root }

  function TreeKey(cfg: Config, wt: Worktree): string { cfg.hostId + ":" + cfg.clean(wt.path) }

  function WorktreeNode(cfg: Config, poll: RootPoll, wt: Worktree): Node {
    var counts := match poll.revList(wt.path) case None => NO_COUNTS case Some(out) => ParseAheadBehind(out);
    Node(TreeKey(cfg, wt), cfg.hostId, RepoKey(cfg, poll.root), poll.slug, wt.path,
         Visible(BranchPtr(wt.branch), wt.head, wt.detached, counts.ahead, counts.behind))
  }

  // ---------------------------------------------------------------- store and gate operations

  function UpsertRepo(g: Git, cfg: Config, poll: RootPoll, now: Time): Git {
    g.(repos := g.repos[RepoKey(cfg, poll.root) := Repo(cfg.hostId, poll.slug, poll.root, now)])
  }

  function UpsertWorktree(g: Git, n: Node, now: Time): Git {
    g.(rows := g.rows[n.key := Row(n.hostId, n.repoKey, n.path, n.vis, now, None)],
       order := if n.key in g.rows then g.order else g.order + [n.key])
  }

  function EmitIfChanged(g: Git, n: Node): Git {
    var h := WorktreeHash(n.vis);
    var quiet := n.key in g.hashes && g.hashes[n.key] == h;
    g.(hashes := g.hashes[n.key := h],
       events := if quiet then g.events else g.events + [Updated(n)])
  }

  /** The live rows of a repo that are not kept, in scan order. */
  function GoneKeys(order: seq<string>, rows: map<string, Row>, repoKey: string, keep: seq<string>): seq<string> {
    if order == [] then []
    else
      var k := order[0];
      var rest := GoneKeys(order[1..], rows, repoKey, keep);
      if k in rows && rows[k].repoKey == repoKey && rows[k].stale.None? && k !in keep then [k] + rest else rest
  }

  function Stamp(rows: map<string, Row>, k: string, now: Time): map<string, Row> {
    if k in rows && rows[k].stale.None? then rows[k := rows[k].(stale := Some(now))] else rows
  }

  function StampAll(rows: map<string, Row>, gone: seq<string>, now: Time): map<string, Row> {
    if gone == [] then rows else Stamp(StampAll(rows, gone[..|gone| - 1], now), gone[|gone| - 1], now)
  }

  /** forget and the removed event for every key the mark reported. */
  function ForgetAll(g: Git, gone: seq<string>): Git {
    if gone == [] then g
    else
      var g' := ForgetAll(g, gone[..|gone| - 1]);
      var k := gone[|gone| - 1];
      g'.(hashes := g'.hashes - {k}, events := g'.events + [Removed(k)])
  }

  function Prefix(gone: seq<string>, done: nat): seq<string> {
    if done <= |gone| then gone[..done] else gone
  }

  // ---------------------------------------------------------------- one root, one pass

  /** The loop over one root's listing: new state, keys seen, upserts counted, failures. */
  datatype TreeLoop = TreeLoop(g: Git, seen: seq<string>, errs: seq<Failure>)

  function Trees(l: TreeLoop, cfg: Config, poll: RootPoll, wts: seq<Worktree>, i: nat, now: Time): TreeLoop
    requires i <= |wts|
    decreases |wts| - i
  {
    if i == |wts| then l
    else Trees(TreeStep(l, cfg, poll, wts[i], i, now), cfg, poll, wts, i + 1, now)
  }

  function TreeStep(l: TreeLoop, cfg: Config, poll: RootPoll, wt: Worktree, i: nat, now: Time): TreeLoop {
    if wt.bare then l
    else
      var n := WorktreeNode(cfg, poll, wt);
      if !poll.treeOk(i) then l.(errs := l.errs + [TreeFailed(poll.root, n.key)])
      else TreeLoop(EmitIfChanged(UpsertWorktree(l.g, n, now), n), l.seen + [n.key], l.errs)
  }

  function MarkStep(g: Git, cfg: Config, poll: RootPoll, seen: seq<string>, now: Time): Git {
    var gone := GoneKeys(g.order, g.rows, RepoKey(cfg, poll.root), seen);
    match poll.mark
    case Marked => ForgetAll(g.(rows := StampAll(g.rows, gone, now)), gone)
    case Stopped(done) => g.(rows := StampAll(g.rows, Prefix(gone, done), now))
  }

  datatype Pass = Pass(g: Git, total: nat, errs: seq<Failure>)

  function RootStep(p: Pass, cfg: Config, poll: RootPoll, now: Time): Pass {
    if poll.listing.None? then p
    else if !poll.repoOk then p.(errs := p.errs + [RepoFailed(poll.root)])
    else
      var l := Trees(TreeLoop(UpsertRepo(p.g, cfg, poll, now), [], []), cfg, poll, ParseWorktreeList(poll.listing.value), 0, now);
      var total := p.total + |l.seen|;
      if l.errs != [] then Pass(l.g, total, p.errs + l.errs)
      else Pass(MarkStep(l.g, cfg, poll, l.seen, now), total,
                if poll.mark.Marked? then p.errs else p.errs + [MarkFailed(poll.root)])
  }

  function Passes(p: Pass, cfg: Config, polls: seq<RootPoll>, now: Time): Pass
    decreases polls
  {
    if polls == [] then p else Passes(RootStep(p, cfg, polls[0], now), cfg, polls[1..], now)
  }

  lemma PassesUnfold(p: Pass, cfg: Config, polls: seq<RootPoll>, i: nat, now: Time)
    requires i < |polls|
    ensures Passes(p, cfg, polls[i..], now) == Passes(RootStep(p, cfg, polls[i], now), cfg, polls[i + 1..], now)
  {
    assert polls[i..][0] == polls[i] && polls[i..][1..] == polls[i + 1..];
  }

  /** What one reconcile does to the tables, the gate and the stream. */
  function Reconcile(g: Git, cfg: Config, polls: seq<RootPoll>, now: Time): Pass {
    Passes(Pass(g, 0, []), cfg, polls, now)
  }

  // ---------------------------------------------------------------- the plugin as an object

  class Plugin {
    const cfg: Config
    var repos: map<string, Repo>
    var order: seq<string>
    var rows: map<string, Row>
    var hashes: map<string, string>
    var wtCount: nat
    var events: seq<Event>

    constructor (cfg: Config)
      ensures this.cfg == cfg && State() == EMPTY && wtCount == 0
    {
      this.cfg := cfg;
      repos, order, rows, hashes, wtCount, events := map[], [], map[], map[], 0, [];
    }

    function State(): Git
      reads this
    {
      Git(repos, order, rows, hashes, events)
    }

    method StoreWorktree(n: Node, now: Time)
      modifies this`rows, this`order
      ensures State() == UpsertWorktree(old(State()), n, now)
    {
      if n.key !in rows {
        order := order + [n.key];
      }
      rows := rows[n.key := Row(n.hostId, n.repoKey, n.path, n.vis, now, None)];
    }

    method EmitChange(n: Node)
      modifies this`hashes, this`events
      ensures State() == EmitIfChanged(old(State()), n)
    {
      var h := WorktreeHash(n.vis);
      var existed := n.key in hashes;
      var same := existed && hashes[n.key] == h;
      hashes := hashes[n.key := h];
      if same {
        return;
      }
      events := events + [Updated(n)];
    }

    /** markWorktreesStaleForRepo: scan, then one UPDATE per vanished row, possibly cut short by an error. */
    method MarkStale(repoKey: string, keep: seq<string>, outcome: MarkOutcome, now: Time) returns (gone: seq<string>, ok: bool)
      modifies this`rows
      ensures ok == outcome.Marked?
      ensures gone == GoneKeys(old(order), old(rows), repoKey, keep)
      ensures rows == StampAll(old(rows), if ok then gone else Prefix(gone, outcome.done), now)
    {
      gone := [];
      var i := |order|;
      while i > 0
        invariant 0 <= i <= |order|
        invariant gone == GoneKeys(order[i..], rows, repoKey, keep)
        invariant rows == old(rows)
      {
        i := i - 1;
        var k := order[i];
        assert order[i..][0] == k && order[i..][1..] == order[i + 1..];
        if k in rows && rows[k].repoKey == repoKey && rows[k].stale.None? && k !in keep {
          gone := [k] + gone;
        }
      }
      assert order[0..] == order;
      ok := outcome.Marked?;
      var limit := match outcome case Marked => |gone| case Stopped(done) => if done <= |gone| then done else |gone|;
      var j := 0;
      while j < limit
        invariant 0 <= j <= limit
        invariant rows == StampAll(old(rows), gone[..j], now)
      {
        var k := gone[j];
        assert gone[..j + 1][..j] == gone[..j];
        if k in rows && rows[k].stale.None? {
          rows := rows[k := rows[k].(stale := Some(now))];
        }
        j := j + 1;
      }
      assert gone[..|gone|] == gone;
    }

    /** The loop over one root's listing. */
    method StoreListing(poll: RootPoll, wts: seq<Worktree>, now: Time) returns (seen: seq<string>, errs: seq<Failure>)
      modifies this`rows, this`order, this`hashes, this`events
      ensures Trees(TreeLoop(old(State()), [], []), cfg, poll, wts, 0, now) == TreeLoop(State(), seen, errs)
    {
      seen, errs := [], [];
      var i := 0;
      while i < |wts|
        invariant 0 <= i <= |wts|
        invariant Trees(TreeLoop(old(State()), [], []), cfg, poll, wts, 0, now)
               == Trees(TreeLoop(State(), seen, errs), cfg, poll, wts, i, now)
      {
        var wt := wts[i];
        if !wt.bare {
          var n := WorktreeNode(cfg, poll, wt);
          if !poll.treeOk(i) {
            errs := errs + [TreeFailed(poll.root, n.key)];
          } else {
            StoreWorktree(n, now);
            seen := seen + [n.key];
            EmitChange(n);
          }
        }
        i := i + 1;
      }
    }

    /** forget and the removed event for each vanished worktree. */
    method Announce(gone: seq<string>)
      modifies this`hashes, this`events
      ensures State() == ForgetAll(old(State()), gone)
    {
      var j := 0;
      while j < |gone|
        invariant 0 <= j <= |gone|
        invariant State() == ForgetAll(old(State()), gone[..j])
      {
        assert gone[..j + 1][..j] == gone[..j];
        hashes := hashes - {gone[j]};
        events := events + [Removed(gone[j])];
        j := j + 1;
      }
      assert gone[..|gone|] == gone;
    }

    /** One root of the loop; returns how many worktrees it stored and its failures. */
    method ReconcileRoot(poll: RootPoll, now: Time, ghost p: Pass) returns (stored: nat, errs: seq<Failure>)
      requires p.g == State()
      modifies this
      ensures wtCount == old(wtCount)
      ensures RootStep(p, cfg, poll, now) == Pass(State(), p.total + stored, p.errs + errs)
    {
      stored, errs := 0, [];
      if poll.listing.None? {
        return;
      }
      if !poll.repoOk {
        errs := [RepoFailed(poll.root)];
        return;
      }
      repos := repos[RepoKey(cfg, poll.root) := Repo(cfg.hostId, poll.slug, poll.root, now)];
      var wts := ReadWorktreeList(poll.listing.value);
      var seen;
      seen, errs := StoreListing(poll, wts, now);
      stored := |seen|;
      if errs != [] {
        return;
      }
      var gone, ok := MarkStale(RepoKey(cfg, poll.root), seen, poll.mark, now);
      if !ok {
        errs := [MarkFailed(poll.root)];
        return;
      }
      Announce(gone);
    }

    /** The reconcile pass: every root in turn, failures collected, the count published at the end. */
    method Run(polls: seq<RootPoll>, now: Time) returns (errs: seq<Failure>)
      modifies this
      ensures Reconcile(old(State()), cfg, polls, now) == Pass(State(), wtCount, errs)
    {
      var total := 0;
      errs := [];
      var i := 0;
      while i < |polls|
        invariant 0 <= i <= |polls|
        invariant Passes(Pass(old(State()), 0, []), cfg, polls, now) == Passes(Pass(State(), total, errs), cfg, polls[i..], now)
      {
        ghost var before := Pass(State(), total, errs);
        PassesUnfold(before, cfg, polls, i, now);
        var stored, failed := ReconcileRoot(polls[i], now, before);
        total := total + stored;
        errs := errs + failed;
        i := i + 1;
      }
      wtCount := total;
    }
  }
}
