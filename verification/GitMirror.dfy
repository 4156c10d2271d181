/** After a clean pass the live rows of a root are what git listed (plugins/git/reconcile.go:71-103). */
module GitMirror {
  import opened Options
  import opened Text
  import opened GitPorcelain
  import opened GitReconcile
  import opened GitReplay

  /** The table scan reaches every row. */
  predicate Covered(g: Git) { forall k :: k in g.rows ==> k in g.order }

  /** The last listed, non-bare worktree at or after `i` that has key `k` and whose upsert succeeded. */
  function Latest(cfg: Config, poll: RootPoll, wts: seq<Worktree>, i: nat, k: string): (r: Option<nat>)
    requires i <= |wts|
    ensures r.Some? ==> i <= r.value < |wts| && Stored(poll, wts, r.value) && TreeKey(cfg, wts[r.value]) == k
    ensures r.Some? ==> forall j :: r.value < j < |wts| && Stored(poll, wts, j) ==> TreeKey(cfg, wts[j]) != k
    ensures r.None? ==> forall j :: i <= j < |wts| && Stored(poll, wts, j) ==> TreeKey(cfg, wts[j]) != k
    decreases |wts| - i
  {
    if i == |wts| then None
    else
      var later := Latest(cfg, poll, wts, i + 1, k);
      if later.Some? then later
      else if Stored(poll, wts, i) && TreeKey(cfg, wts[i]) == k then Some(i)
      else None
  }

  predicate Stored(poll: RootPoll, wts: seq<Worktree>, i: nat)
    requires i < |wts|
  {
    !wts[i].bare && poll.treeOk(i)
  }

  predicate AllStored(poll: RootPoll, wts: seq<Worktree>) {
    forall i :: 0 <= i < |wts| && !wts[i].bare ==> poll.treeOk(i)
  }

  // ---------------------------------------------------------------- what a row says

  predicate In64(n: int) { -0x8000_0000_0000_0000 <= n < 0x8000_0000_0000_0000 }

  /** What `git rev-list --left-right --count` prints of two counts. */
  predicate Printed(out: string, left: int, right: int) { In64(left) && In64(right) && out == Itoa(left) + "\t" + Itoa(right) + "\n" }

  /** Two numbers and nothing else, anyhow spaced. */
  predicate TwoNumbers(out: string, left: int, right: int) {
    var f := Fields(out);
    |f| == 2 && Atoi(f[0]) == Some(left) && Atoi(f[1]) == Some(right)
  }

  /** Left is ahead and right is behind; when git fails or prints anything but two numbers, neither is known. */
  ghost predicate CountsSay(out: Option<string>, ahead: Option<int>, behind: Option<int>) {
    && (forall a, b :: out.Some? && Printed(out.value, a, b) ==> ahead == Some(a) && behind == Some(b))
    && (forall a, b :: out.Some? && TwoNumbers(out.value, a, b) ==> ahead == Some(a) && behind == Some(b))
    && (ahead.Some? || behind.Some? ==> out.Some? && exists a, b :: TwoNumbers(out.value, a, b))
  }

  ghost predicate VisibleSays(counts: Option<string>, wt: Worktree, v: Visible) {
    && v.branch == (if wt.branch == "" then None else Some(wt.branch))
    && v.head == wt.head && v.detached == wt.detached
    && CountsSay(counts, v.ahead, v.behind)
  }

  ghost predicate RowSays(cfg: Config, poll: RootPoll, wt: Worktree, row: Row, now: Time) {
    && row.hostId == cfg.hostId && row.repoKey == cfg.hostId + ":" + poll.root && row.path == wt.path
    && row.lastSeen == now && row.stale == None
    && VisibleSays(poll.revList(wt.path), wt, row.vis)
  }

  function FreshRow(cfg: Config, poll: RootPoll, wt: Worktree, now: Time): Row {
    var n := WorktreeNode(cfg, poll, wt);
    Row(n.hostId, n.repoKey, n.path, n.vis, now, None)
  }

  lemma PrintedReads(out: string, a: int, b: int)
    requires Printed(out, a, b)
    ensures ParseAheadBehind(out) == Counts(Some(a), Some(b))
  {
    AheadBehindRoundTrip(a, b);
  }

  lemma NumbersRead(out: string)
    ensures forall a, b :: TwoNumbers(out, a, b) ==> ParseAheadBehind(out) == Counts(Some(a), Some(b))
    ensures ParseAheadBehind(out) != Counts(None, None) ==> exists a, b :: TwoNumbers(out, a, b)
  {
    var c := ParseAheadBehind(out);
    if c != Counts(None, None) {
      assert TwoNumbers(out, c.ahead.value, c.behind.value);
    }
  }

  lemma CountsRead(out: string)
    ensures CountsSay(Some(out), ParseAheadBehind(out).ahead, ParseAheadBehind(out).behind)
  {
    NumbersRead(out);
    forall a, b | Printed(out, a, b) ensures ParseAheadBehind(out) == Counts(Some(a), Some(b)) {
      PrintedReads(out, a, b);
    }
  }

  lemma NodeSays(cfg: Config, poll: RootPoll, wt: Worktree)
    ensures VisibleSays(poll.revList(wt.path), wt, WorktreeNode(cfg, poll, wt).vis)
  {
    match poll.revList(wt.path)
    case None =>
    case Some(out) => CountsRead(out);
  }

  lemma {:induction false} TreesStore(l: TreeLoop, cfg: Config, poll: RootPoll, wts: seq<Worktree>, i: nat, now: Time, k: string)
    requires i <= |wts|
    ensures var h, last := Trees(l, cfg, poll, wts, i, now), Latest(cfg, poll, wts, i, k);
            && (k in h.seen <==> k in l.seen || last.Some?)
            && (k in h.g.rows <==> k in l.g.rows || last.Some?)
            && (last.Some? ==> h.g.rows[k] == FreshRow(cfg, poll, wts[last.value], now))
            && (last.None? && k in l.g.rows ==> h.g.rows[k] == l.g.rows[k])
    decreases |wts| - i
  {
    if i < |wts| {
      TreesStore(TreeStep(l, cfg, poll, wts[i], i, now), cfg, poll, wts, i + 1, now, k);
    }
  }

  lemma {:induction false} NoErrors(l: TreeLoop, cfg: Config, poll: RootPoll, wts: seq<Worktree>, i: nat, now: Time)
    requires i <= |wts| && AllStored(poll, wts)
    ensures Trees(l, cfg, poll, wts, i, now).errs == l.errs
    decreases |wts| - i
  {
    if i < |wts| {
      NoErrors(TreeStep(l, cfg, poll, wts[i], i, now), cfg, poll, wts, i + 1, now);
    }
  }

  lemma {:induction false} TreesCovered(l: TreeLoop, cfg: Config, poll: RootPoll, wts: seq<Worktree>, i: nat, now: Time)
    requires i <= |wts| && Covered(l.g)
    ensures Covered(Trees(l, cfg, poll, wts, i, now).g)
    decreases |wts| - i
  {
    if i < |wts| {
      TreesCovered(TreeStep(l, cfg, poll, wts[i], i, now), cfg, poll, wts, i + 1, now);
    }
  }

  lemma MarkExactly(g: Git, cfg: Config, poll: RootPoll, seen: seq<string>, now: Time, k: string)
    requires Covered(g) && poll.mark.Marked? && k in g.rows
    ensures var h := MarkStep(g, cfg, poll, seen, now).rows;
            && k in h
            && h[k] == if g.rows[k].repoKey == RepoKey(cfg, poll.root) && g.rows[k].stale.None? && k !in seen
                       then g.rows[k].(stale := Some(now)) else g.rows[k]
  {
    var gone := GoneKeys(g.order, g.rows, RepoKey(cfg, poll.root), seen);
    GoneExactly(g.order, g.rows, RepoKey(cfg, poll.root), seen, k);
    StampAllExactly(g.rows, gone, now);
    ForgetAllExactly(g.(rows := StampAll(g.rows, gone, now)), gone);
  }

  lemma MarkCovered(g: Git, cfg: Config, poll: RootPoll, seen: seq<string>, now: Time)
    requires Covered(g)
    ensures Covered(MarkStep(g, cfg, poll, seen, now))
  {
    var gone := GoneKeys(g.order, g.rows, RepoKey(cfg, poll.root), seen);
    var cut := match poll.mark case Marked => gone case Stopped(done) => Prefix(gone, done);
    StampAllExactly(g.rows, cut, now);
    ForgetAllExactly(g.(rows := StampAll(g.rows, gone, now)), gone);
  }

  /**
   * When git answers and every write succeeds, a row of the root is live exactly when git listed its
   * worktree, and then its fields are those git listed last for that key, and its counts what rev-list printed.
   */
  lemma RootMirrorsGit(q: Pass, cfg: Config, poll: RootPoll, now: Time, k: string)
    requires Covered(q.g) && poll.listing.Some? && poll.repoOk && poll.mark.Marked?
    requires AllStored(poll, ParseWorktreeList(poll.listing.value))
    ensures var wts := ParseWorktreeList(poll.listing.value);
            var h, last := RootStep(q, cfg, poll, now).g.rows, Latest(cfg, poll, wts, 0, k);
            && (k in h && h[k].repoKey == RepoKey(cfg, poll.root) && h[k].stale.None? <==> last.Some?)
            && (last.Some? ==> RowSays(cfg, poll, wts[last.value], h[k], now))
  {
    var wts := ParseWorktreeList(poll.listing.value);
    var first := TreeLoop(UpsertRepo(q.g, cfg, poll, now), [], []);
    TreesStore(first, cfg, poll, wts, 0, now, k);
    NoErrors(first, cfg, poll, wts, 0, now);
    var last := Latest(cfg, poll, wts, 0, k);
    if last.Some? {
      NodeSays(cfg, poll, wts[last.value]);
    }
    TreesCovered(first, cfg, poll, wts, 0, now);
    var l := Trees(first, cfg, poll, wts, 0, now);
    if k in l.g.rows {
      MarkExactly(l.g, cfg, poll, l.seen, now, k);
    } else {
      var gone := GoneKeys(l.g.order, l.g.rows, RepoKey(cfg, poll.root), l.seen);
      StampAllExactly(l.g.rows, gone, now);
      ForgetAllExactly(l.g.(rows := StampAll(l.g.rows, gone, now)), gone);
    }
  }

  lemma RootCovered(q: Pass, cfg: Config, poll: RootPoll, now: Time)
    requires Covered(q.g)
    ensures Covered(RootStep(q, cfg, poll, now).g)
  {
    if poll.listing.Some? && poll.repoOk {
      var first := TreeLoop(UpsertRepo(q.g, cfg, poll, now), [], []);
      TreesCovered(first, cfg, poll, ParseWorktreeList(poll.listing.value), 0, now);
      var l := Trees(first, cfg, poll, ParseWorktreeList(poll.listing.value), 0, now);
      MarkCovered(l.g, cfg, poll, l.seen, now);
    }
  }

  lemma {:induction false} PassesCovered(q: Pass, cfg: Config, polls: seq<RootPoll>, now: Time)
    requires Covered(q.g)
    ensures Covered(Passes(q, cfg, polls, now).g)
    decreases polls
  {
    if polls != [] {
      RootCovered(q, cfg, polls[0], now);
      PassesCovered(RootStep(q, cfg, polls[0], now), cfg, polls[1..], now);
    }
  }

  /** The scan order covers the table in every reachable state, so the mirror theorem applies to every pass. */
  lemma {:induction false} RunCovered(cfg: Config, steps: seq<Step>)
    ensures Covered(Run(cfg, steps))
  {
    if steps != [] {
      var init, last := steps[..|steps| - 1], steps[|steps| - 1];
      RunCovered(cfg, init);
      match last
      case Poll(polls, now) => PassesCovered(Pass(Run(cfg, init), 0, []), cfg, polls, now);
      case Restart =>
    }
  }
}
