/** One root never disturbs another (plugins/git/reconcile.go:53-109, plugins/git/store.go:110-151). */
module GitIsolation {
  import opened Options
  import opened GitPorcelain
  import opened GitReconcile
  import opened GitReplay

  // ---------------------------------------------------------------- what a root owns

  /** `mine` holds every worktree key of the root under study; a row belongs to that root exactly when its key is in it. */
  predicate Owned(g: Git, repoKey: string, mine: set<string>) {
    forall k :: k in g.rows ==> (g.rows[k].repoKey == repoKey <==> k in mine)
  }

  predicate ListedKeysIn(cfg: Config, wts: seq<Worktree>, keys: set<string>, inside: bool) {
    forall i :: 0 <= i < |wts| && !wts[i].bare ==> (TreeKey(cfg, wts[i]) in keys <==> inside)
  }

  /** The root's own listings stay inside `mine`; every other root's stay outside. */
  predicate Disjoint(cfg: Config, poll: RootPoll, root: string, mine: set<string>) {
    poll.listing.Some? ==> ListedKeysIn(cfg, ParseWorktreeList(poll.listing.value), mine, poll.root == root)
  }

  function KeyOf(e: Event): string {
    match e case Updated(n) => n.key case Removed(k) => k
  }

  function OtherKeys(order: seq<string>, mine: set<string>): seq<string> {
    if order == [] then []
    else var init := OtherKeys(order[..|order| - 1], mine);
      if order[|order| - 1] in mine then init else init + [order[|order| - 1]]
  }

  function OtherEvents(events: seq<Event>, mine: set<string>): seq<Event> {
    if events == [] then []
    else var init := OtherEvents(events[..|events| - 1], mine);
      if KeyOf(events[|events| - 1]) in mine then init else init + [events[|events| - 1]]
  }

  /** Two states that differ at most in what belongs to the root under study. */
  predicate SameElsewhere(a: Git, b: Git, repoKey: string, mine: set<string>) {
    && a.rows - mine == b.rows - mine
    && a.hashes - mine == b.hashes - mine
    && a.repos - {repoKey} == b.repos - {repoKey}
    && OtherKeys(a.order, mine) == OtherKeys(b.order, mine)
    && OtherEvents(a.events, mine) == OtherEvents(b.events, mine)
  }

  lemma PutElsewhere<T>(m: map<string, T>, k: string, v: T, mine: set<string>)
    ensures m[k := v] - mine == if k in mine then m - mine else (m - mine)[k := v]
  {}

  lemma GetElsewhere<T>(a: map<string, T>, b: map<string, T>, mine: set<string>, k: string)
    requires a - mine == b - mine && k !in mine
    ensures k in a <==> k in b
    ensures k in a ==> a[k] == b[k]
  {
    assert k in a <==> k in a - mine;
    assert k in b <==> k in b - mine;
    assert k in a ==> a[k] == (a - mine)[k];
    assert k in b ==> b[k] == (b - mine)[k];
  }

  lemma OtherKeysAppend(order: seq<string>, k: string, mine: set<string>)
    ensures OtherKeys(order + [k], mine) == OtherKeys(order, mine) + if k in mine then [] else [k]
  {
    assert (order + [k])[..|order|] == order;
  }

  lemma OtherEventsAppend(events: seq<Event>, e: Event, mine: set<string>)
    ensures OtherEvents(events + [e], mine) == OtherEvents(events, mine) + if KeyOf(e) in mine then [] else [e]
  {
    assert (events + [e])[..|events|] == events;
  }

  // ---------------------------------------------------------------- the root's own steps stay inside

  lemma OwnTree(g: Git, n: Node, now: Time, mine: set<string>)
    requires n.key in mine && Owned(g, n.repoKey, mine)
    ensures var h := EmitIfChanged(UpsertWorktree(g, n, now), n);
            SameElsewhere(g, h, n.repoKey, mine) && Owned(h, n.repoKey, mine)
  {
    OtherKeysAppend(g.order, n.key, mine);
    OtherEventsAppend(g.events, Updated(n), mine);
    PutElsewhere(g.rows, n.key, Row(n.hostId, n.repoKey, n.path, n.vis, now, None), mine);
    PutElsewhere(g.hashes, n.key, WorktreeHash(n.vis), mine);
  }

  lemma {:induction false} OwnForget(g: Git, gone: seq<string>, mine: set<string>)
    requires forall k :: k in gone ==> k in mine
    ensures OtherEvents(ForgetAll(g, gone).events, mine) == OtherEvents(g.events, mine)
  {
    if gone != [] {
      OwnForget(g, gone[..|gone| - 1], mine);
      OtherEventsAppend(ForgetAll(g, gone[..|gone| - 1]).events, Removed(gone[|gone| - 1]), mine);
    }
  }

  lemma OwnMark(g: Git, cfg: Config, poll: RootPoll, seen: seq<string>, now: Time, mine: set<string>)
    requires Owned(g, RepoKey(cfg, poll.root), mine)
    ensures var h := MarkStep(g, cfg, poll, seen, now);
            SameElsewhere(g, h, RepoKey(cfg, poll.root), mine) && Owned(h, RepoKey(cfg, poll.root), mine)
  {
    var gone := GoneKeys(g.order, g.rows, RepoKey(cfg, poll.root), seen);
    forall k | k in gone ensures k in mine {
      GoneExactly(g.order, g.rows, RepoKey(cfg, poll.root), seen, k);
    }
    match poll.mark
    case Marked =>
      OwnStamp(g, gone, now, RepoKey(cfg, poll.root), mine);
      var s := g.(rows := StampAll(g.rows, gone, now));
      ForgetAllExactly(s, gone);
      OwnForget(s, gone, mine);
      assert ForgetAll(s, gone).hashes - mine == g.hashes - mine;
    case Stopped(done) =>
      OwnStamp(g, Prefix(gone, done), now, RepoKey(cfg, poll.root), mine);
  }

  lemma OwnStamp(g: Git, gone: seq<string>, now: Time, repoKey: string, mine: set<string>)
    requires Owned(g, repoKey, mine) && forall k :: k in gone ==> k in mine
    ensures StampAll(g.rows, gone, now) - mine == g.rows - mine
    ensures Owned(g.(rows := StampAll(g.rows, gone, now)), repoKey, mine)
  {
    StampAllExactly(g.rows, gone, now);
  }

  lemma {:induction false} OwnTrees(l: TreeLoop, cfg: Config, poll: RootPoll, wts: seq<Worktree>, i: nat, now: Time,
                                    mine: set<string>)
    requires i <= |wts| && ListedKeysIn(cfg, wts, mine, true) && Owned(l.g, RepoKey(cfg, poll.root), mine)
    ensures var h := Trees(l, cfg, poll, wts, i, now).g;
            SameElsewhere(l.g, h, RepoKey(cfg, poll.root), mine) && Owned(h, RepoKey(cfg, poll.root), mine)
    decreases |wts| - i
  {
    if i < |wts| {
      if !wts[i].bare && poll.treeOk(i) {
        OwnTree(l.g, WorktreeNode(cfg, poll, wts[i]), now, mine);
      }
      OwnTrees(TreeStep(l, cfg, poll, wts[i], i, now), cfg, poll, wts, i + 1, now, mine);
    }
  }

  lemma OwnRoot(q: Pass, cfg: Config, poll: RootPoll, now: Time, mine: set<string>)
    requires Owned(q.g, RepoKey(cfg, poll.root), mine) && Disjoint(cfg, poll, poll.root, mine)
    ensures var h := RootStep(q, cfg, poll, now).g;
            SameElsewhere(q.g, h, RepoKey(cfg, poll.root), mine) && Owned(h, RepoKey(cfg, poll.root), mine)
  {
    if poll.listing.Some? && poll.repoOk {
      var u := UpsertRepo(q.g, cfg, poll, now);
      assert u.repos - {RepoKey(cfg, poll.root)} == q.g.repos - {RepoKey(cfg, poll.root)};
      var wts := ParseWorktreeList(poll.listing.value);
      OwnTrees(TreeLoop(u, [], []), cfg, poll, wts, 0, now, mine);
      var l := Trees(TreeLoop(u, [], []), cfg, poll, wts, 0, now);
      OwnMark(l.g, cfg, poll, l.seen, now, mine);
    }
  }

  // ---------------------------------------------------------------- other roots cannot tell the difference

  lemma OtherUpsert(a: Git, b: Git, n: Node, now: Time, repoKey: string, mine: set<string>)
    requires n.key !in mine && n.repoKey != repoKey
    requires SameElsewhere(a, b, repoKey, mine) && Owned(a, repoKey, mine) && Owned(b, repoKey, mine)
    ensures var a', b' := UpsertWorktree(a, n, now), UpsertWorktree(b, n, now);
            SameElsewhere(a', b', repoKey, mine) && Owned(a', repoKey, mine) && Owned(b', repoKey, mine)
  {
    GetElsewhere(a.rows, b.rows, mine, n.key);
    var row := Row(n.hostId, n.repoKey, n.path, n.vis, now, None);
    PutElsewhere(a.rows, n.key, row, mine);
    PutElsewhere(b.rows, n.key, row, mine);
    OtherKeysAppend(a.order, n.key, mine);
    OtherKeysAppend(b.order, n.key, mine);
  }

  lemma OtherEmit(a: Git, b: Git, n: Node, repoKey: string, mine: set<string>)
    requires n.key !in mine && SameElsewhere(a, b, repoKey, mine)
    ensures SameElsewhere(EmitIfChanged(a, n), EmitIfChanged(b, n), repoKey, mine)
  {
    GetElsewhere(a.hashes, b.hashes, mine, n.key);
    PutElsewhere(a.hashes, n.key, WorktreeHash(n.vis), mine);
    PutElsewhere(b.hashes, n.key, WorktreeHash(n.vis), mine);
    OtherEventsAppend(a.events, Updated(n), mine);
    OtherEventsAppend(b.events, Updated(n), mine);
  }

  lemma {:induction false} GoneAppend(order: seq<string>, k: string, rows: map<string, Row>, repoKey: string, keep: seq<string>)
    ensures GoneKeys(order + [k], rows, repoKey, keep) == GoneKeys(order, rows, repoKey, keep) + GoneKeys([k], rows, repoKey, keep)
  {
    if order == [] {
      assert [] + [k] == [k];
    } else {
      assert (order + [k])[0] == order[0] && (order + [k])[1..] == order[1..] + [k];
      GoneAppend(order[1..], k, rows, repoKey, keep);
    }
  }

  /** A scan for another repo sees only rows outside `mine`. */
  lemma {:induction false} GoneElsewhere(order: seq<string>, a: map<string, Row>, b: map<string, Row>, other: string,
                                         keep: seq<string>, mine: set<string>)
    requires forall k :: k in a && k in mine ==> a[k].repoKey != other
    requires a - mine == b - mine
    ensures GoneKeys(order, a, other, keep) == GoneKeys(OtherKeys(order, mine), b, other, keep)
  {
    if order != [] {
      var init, last := order[..|order| - 1], order[|order| - 1];
      assert order == init + [last];
      GoneAppend(init, last, a, other, keep);
      GoneElsewhere(init, a, b, other, keep, mine);
      assert last in mine ==> GoneKeys([last], a, other, keep) == [];
      if last !in mine {
        GetElsewhere(a, b, mine, last);
        GoneAppend(OtherKeys(init, mine), last, b, other, keep);
      }
    }
  }

  lemma {:induction false} ForgetElsewhere(a: Git, b: Git, gone: seq<string>, mine: set<string>)
    requires OtherEvents(a.events, mine) == OtherEvents(b.events, mine)
    ensures OtherEvents(ForgetAll(a, gone).events, mine) == OtherEvents(ForgetAll(b, gone).events, mine)
  {
    if gone != [] {
      var init, last := gone[..|gone| - 1], gone[|gone| - 1];
      ForgetElsewhere(a, b, init, mine);
      OtherEventsAppend(ForgetAll(a, init).events, Removed(last), mine);
      OtherEventsAppend(ForgetAll(b, init).events, Removed(last), mine);
    }
  }

  lemma StampElsewhere(a: map<string, Row>, b: map<string, Row>, gone: seq<string>, now: Time, mine: set<string>)
    requires a - mine == b - mine
    ensures StampAll(a, gone, now) - mine == StampAll(b, gone, now) - mine
  {
    StampAllExactly(a, gone, now);
    StampAllExactly(b, gone, now);
    var sa, sb := StampAll(a, gone, now) - mine, StampAll(b, gone, now) - mine;
    forall k ensures (k in sa <==> k in sb) && (k in sa ==> sa[k] == sb[k]) {
      if k !in mine {
        GetElsewhere(a, b, mine, k);
      }
    }
  }

  lemma ForgetHashesElsewhere(a: Git, b: Git, gone: seq<string>, mine: set<string>)
    requires a.hashes - mine == b.hashes - mine
    ensures ForgetAll(a, gone).hashes - mine == ForgetAll(b, gone).hashes - mine
  {
    ForgetAllExactly(a, gone);
    ForgetAllExactly(b, gone);
    var ha, hb := ForgetAll(a, gone).hashes - mine, ForgetAll(b, gone).hashes - mine;
    forall k ensures (k in ha <==> k in hb) && (k in ha ==> ha[k] == hb[k]) {
      if k !in mine {
        GetElsewhere(a.hashes, b.hashes, mine, k);
      }
    }
  }

  lemma StampOwned(g: Git, gone: seq<string>, now: Time, repoKey: string, mine: set<string>)
    requires Owned(g, repoKey, mine)
    ensures Owned(g.(rows := StampAll(g.rows, gone, now)), repoKey, mine)
  {
    StampAllExactly(g.rows, gone, now);
  }

  lemma OtherMark(a: Git, b: Git, cfg: Config, poll: RootPoll, seen: seq<string>, now: Time, repoKey: string, mine: set<string>)
    requires RepoKey(cfg, poll.root) != repoKey
    requires SameElsewhere(a, b, repoKey, mine) && Owned(a, repoKey, mine) && Owned(b, repoKey, mine)
    ensures var a', b' := MarkStep(a, cfg, poll, seen, now), MarkStep(b, cfg, poll, seen, now);
            SameElsewhere(a', b', repoKey, mine) && Owned(a', repoKey, mine) && Owned(b', repoKey, mine)
  {
    var rk := RepoKey(cfg, poll.root);
    var gone := GoneKeys(a.order, a.rows, rk, seen);
    GoneElsewhere(a.order, a.rows, b.rows, rk, seen, mine);
    GoneElsewhere(b.order, b.rows, b.rows, rk, seen, mine);
    assert gone == GoneKeys(b.order, b.rows, rk, seen);
    var cut := match poll.mark case Marked => gone case Stopped(done) => Prefix(gone, done);
    StampElsewhere(a.rows, b.rows, cut, now, mine);
    StampOwned(a, cut, now, repoKey, mine);
    StampOwned(b, cut, now, repoKey, mine);
    if poll.mark.Marked? {
      var sa, sb := a.(rows := StampAll(a.rows, gone, now)), b.(rows := StampAll(b.rows, gone, now));
      ForgetAllExactly(sa, gone);
      ForgetAllExactly(sb, gone);
      ForgetHashesElsewhere(sa, sb, gone, mine);
      ForgetElsewhere(sa, sb, gone, mine);
    }
  }

  lemma {:induction false} OtherTrees(
    la: TreeLoop, lb: TreeLoop, cfg: Config, poll: RootPoll, wts: seq<Worktree>, i: nat, now: Time, repoKey: string, mine: set<string>)
    requires i <= |wts| && ListedKeysIn(cfg, wts, mine, false) && RepoKey(cfg, poll.root) != repoKey
    requires la.seen == lb.seen && la.errs == lb.errs
    requires SameElsewhere(la.g, lb.g, repoKey, mine) && Owned(la.g, repoKey, mine) && Owned(lb.g, repoKey, mine)
    ensures var a, b := Trees(la, cfg, poll, wts, i, now), Trees(lb, cfg, poll, wts, i, now);
            && a.seen == b.seen && a.errs == b.errs
            && SameElsewhere(a.g, b.g, repoKey, mine) && Owned(a.g, repoKey, mine) && Owned(b.g, repoKey, mine)
    decreases |wts| - i
  {
    if i < |wts| {
      if !wts[i].bare && poll.treeOk(i) {
        var n := WorktreeNode(cfg, poll, wts[i]);
        OtherUpsert(la.g, lb.g, n, now, repoKey, mine);
        OtherEmit(UpsertWorktree(la.g, n, now), UpsertWorktree(lb.g, n, now), n, repoKey, mine);
      }
      OtherTrees(TreeStep(la, cfg, poll, wts[i], i, now), TreeStep(lb, cfg, poll, wts[i], i, now), cfg, poll, wts, i + 1, now, repoKey, mine);
    }
  }

  lemma OtherRoot(p: Pass, q: Pass, cfg: Config, poll: RootPoll, now: Time, root: string, mine: set<string>)
    requires poll.root != root && Disjoint(cfg, poll, root, mine)
    requires SameElsewhere(p.g, q.g, RepoKey(cfg, root), mine)
    requires Owned(p.g, RepoKey(cfg, root), mine) && Owned(q.g, RepoKey(cfg, root), mine)
    ensures var p', q' := RootStep(p, cfg, poll, now), RootStep(q, cfg, poll, now);
            && SameElsewhere(p'.g, q'.g, RepoKey(cfg, root), mine)
            && Owned(p'.g, RepoKey(cfg, root), mine) && Owned(q'.g, RepoKey(cfg, root), mine)
            && p'.total - p.total == q'.total - q.total
  {
    RepoKeyInjective(cfg, poll.root, root);
    if poll.listing.Some? && poll.repoOk {
      var lp := TreeLoop(UpsertRepo(p.g, cfg, poll, now), [], []);
      var lq := TreeLoop(UpsertRepo(q.g, cfg, poll, now), [], []);
      var rk, repo := RepoKey(cfg, poll.root), Repo(cfg.hostId, poll.slug, poll.root, now);
      PutElsewhere(p.g.repos, rk, repo, {RepoKey(cfg, root)});
      PutElsewhere(q.g.repos, rk, repo, {RepoKey(cfg, root)});
      var wts := ParseWorktreeList(poll.listing.value);
      OtherTrees(lp, lq, cfg, poll, wts, 0, now, RepoKey(cfg, root), mine);
      var a, b := Trees(lp, cfg, poll, wts, 0, now), Trees(lq, cfg, poll, wts, 0, now);
      OtherMark(a.g, b.g, cfg, poll, a.seen, now, RepoKey(cfg, root), mine);
    }
  }

  lemma RepoKeyInjective(cfg: Config, r: string, s: string)
    requires r != s
    ensures RepoKey(cfg, r) != RepoKey(cfg, s)
  {
    var h := cfg.hostId + ":";
    assert r == (h + r)[|h|..] && s == (h + s)[|h|..];
  }

  // ---------------------------------------------------------------- whole passes and runs

  function Without(polls: seq<RootPoll>, root: string): seq<RootPoll> {
    if polls == [] then []
    else if polls[0].root == root then Without(polls[1..], root)
    else [polls[0]] + Without(polls[1..], root)
  }

  /** How many worktrees a root's answers let it store: listed, not bare, upsert accepted. */
  function StoredFrom(poll: RootPoll, wts: seq<Worktree>, i: nat): nat
    requires i <= |wts|
    decreases |wts| - i
  {
    if i == |wts| then 0 else (if !wts[i].bare && poll.treeOk(i) then 1 else 0) + StoredFrom(poll, wts, i + 1)
  }

  function StoredBy(poll: RootPoll): nat {
    if poll.listing.None? || !poll.repoOk then 0 else StoredFrom(poll, ParseWorktreeList(poll.listing.value), 0)
  }

  function StoredByRoot(polls: seq<RootPoll>, root: string): nat {
    if polls == [] then 0 else (if polls[0].root == root then StoredBy(polls[0]) else 0) + StoredByRoot(polls[1..], root)
  }

  lemma {:induction false} TreesCount(l: TreeLoop, cfg: Config, poll: RootPoll, wts: seq<Worktree>, i: nat, now: Time)
    requires i <= |wts|
    ensures |Trees(l, cfg, poll, wts, i, now).seen| == |l.seen| + StoredFrom(poll, wts, i)
    decreases |wts| - i
  {
    if i < |wts| {
      TreesCount(TreeStep(l, cfg, poll, wts[i], i, now), cfg, poll, wts, i + 1, now);
    }
  }

  lemma RootCount(q: Pass, cfg: Config, poll: RootPoll, now: Time)
    ensures RootStep(q, cfg, poll, now).total == q.total + StoredBy(poll)
  {
    if poll.listing.Some? && poll.repoOk {
      TreesCount(TreeLoop(UpsertRepo(q.g, cfg, poll, now), [], []), cfg, poll, ParseWorktreeList(poll.listing.value), 0, now);
    }
  }

  lemma {:induction false} PassesIsolated(p: Pass, q: Pass, cfg: Config, polls: seq<RootPoll>, now: Time, root: string,
                                          mine: set<string>)
    requires forall i :: 0 <= i < |polls| ==> Disjoint(cfg, polls[i], root, mine)
    requires SameElsewhere(p.g, q.g, RepoKey(cfg, root), mine)
    requires Owned(p.g, RepoKey(cfg, root), mine) && Owned(q.g, RepoKey(cfg, root), mine)
    ensures var p', q' := Passes(p, cfg, polls, now), Passes(q, cfg, Without(polls, root), now);
            && SameElsewhere(p'.g, q'.g, RepoKey(cfg, root), mine)
            && Owned(p'.g, RepoKey(cfg, root), mine) && Owned(q'.g, RepoKey(cfg, root), mine)
            && p'.total - p.total == q'.total - q.total + StoredByRoot(polls, root)
    decreases polls
  {
    if polls != [] {
      var poll, rest := polls[0], polls[1..];
      assert Disjoint(cfg, poll, root, mine);
      assert forall i :: 0 <= i < |rest| ==> rest[i] == polls[i + 1];
      RootCount(p, cfg, poll, now);
      var p1 := RootStep(p, cfg, poll, now);
      if poll.root == root {
        OwnRoot(p, cfg, poll, now, mine);
        PassesIsolated(p1, q, cfg, rest, now, root, mine);
      } else {
        OtherRoot(p, q, cfg, poll, now, root, mine);
        var q1 := RootStep(q, cfg, poll, now);
        PassesIsolated(p1, q1, cfg, rest, now, root, mine);
        assert Without(polls, root)[1..] == Without(rest, root);
      }
    }
  }

  /** The same run with the root taken out of every pass. */
  function WithoutRoot(steps: seq<Step>, root: string): (r: seq<Step>)
    ensures |r| == |steps|
  {
    if steps == [] then []
    else
      var last := steps[|steps| - 1];
      WithoutRoot(steps[..|steps| - 1], root) + [if last.Poll? then Poll(Without(last.polls, root), last.now) else last]
  }

  ghost predicate DisjointRun(cfg: Config, steps: seq<Step>, root: string, mine: set<string>) {
    forall i :: 0 <= i < |steps| && steps[i].Poll? ==> DisjointPass(cfg, steps[i].polls, root, mine)
  }

  ghost predicate DisjointPass(cfg: Config, polls: seq<RootPoll>, root: string, mine: set<string>) {
    forall j :: 0 <= j < |polls| ==> Disjoint(cfg, polls[j], root, mine)
  }

  /**
   * Non-interference over whole runs, restarts included: whatever one root answers, fails or succeeds,
   * every other row, gate entry, repo and event, in order, is what a run without that root produces.
   */
  lemma {:induction false} RootNonInterference(cfg: Config, steps: seq<Step>, root: string, mine: set<string>)
    requires DisjointRun(cfg, steps, root, mine)
    ensures SameElsewhere(Run(cfg, steps), Run(cfg, WithoutRoot(steps, root)), RepoKey(cfg, root), mine)
    ensures Owned(Run(cfg, steps), RepoKey(cfg, root), mine) && Owned(Run(cfg, WithoutRoot(steps, root)), RepoKey(cfg, root), mine)
    decreases steps
  {
    if steps != [] {
      var init, last := steps[..|steps| - 1], steps[|steps| - 1];
      RootNonInterference(cfg, init, root, mine);
      assert WithoutRoot(steps, root)[..|steps| - 1] == WithoutRoot(init, root);
      var g, h := Run(cfg, init), Run(cfg, WithoutRoot(init, root));
      match last
      case Poll(polls, now) =>
        assert DisjointPass(cfg, polls, root, mine);
        PassesIsolated(Pass(g, 0, []), Pass(h, 0, []), cfg, polls, now, root, mine);
      case Restart => RestartIsolated(g, h, RepoKey(cfg, root), mine);
    }
  }

  lemma RestartIsolated(g: Git, h: Git, repoKey: string, mine: set<string>)
    requires SameElsewhere(g, h, repoKey, mine)
    ensures SameElsewhere(g.(hashes := map[]), h.(hashes := map[]), repoKey, mine)
  {}

  /** The published count of one pass is the count without the root plus what the root stored. */
  lemma CountWithoutRoot(g: Git, cfg: Config, polls: seq<RootPoll>, now: Time, root: string, mine: set<string>)
    requires Owned(g, RepoKey(cfg, root), mine)
    requires forall i :: 0 <= i < |polls| ==> Disjoint(cfg, polls[i], root, mine)
    ensures Reconcile(g, cfg, polls, now).total == Reconcile(g, cfg, Without(polls, root), now).total + StoredByRoot(polls, root)
  {
    PassesIsolated(Pass(g, 0, []), Pass(g, 0, []), cfg, polls, now, root, mine);
  }

  // ---------------------------------------------------------------- a failing root

  /** The rows with keys in `mine` are the same in both tables. */
  predicate SameRows(a: map<string, Row>, b: map<string, Row>, mine: set<string>) {
    forall k :: k in mine ==> (k in a <==> k in b) && (k in a ==> a[k] == b[k])
  }

  predicate FailsEarly(poll: RootPoll) { poll.listing.None? || !poll.repoOk }

  /** A pass in which a root's listing or repo upsert fails is the pass without that root, rows, events, gate and count alike. */
  lemma {:induction false} FailedRootIsAbsent(p: Pass, q: Pass, cfg: Config, polls: seq<RootPoll>, now: Time, root: string)
    requires p.g == q.g && p.total == q.total
    requires forall i :: 0 <= i < |polls| && polls[i].root == root ==> FailsEarly(polls[i])
    ensures Passes(p, cfg, polls, now).g == Passes(q, cfg, Without(polls, root), now).g
    ensures Passes(p, cfg, polls, now).total == Passes(q, cfg, Without(polls, root), now).total
    decreases polls
  {
    if polls != [] {
      var poll, rest := polls[0], polls[1..];
      assert forall i :: 0 <= i < |rest| ==> rest[i] == polls[i + 1];
      var p1 := RootStep(p, cfg, poll, now);
      if poll.root == root {
        FailedRootIsAbsent(p1, q, cfg, rest, now, root);
      } else {
        var q1 := RootStep(q, cfg, poll, now);
        assert Without(polls, root)[1..] == Without(rest, root);
        FailedRootIsAbsent(p1, q1, cfg, rest, now, root);
      }
    }
  }

  /** Rows under the root are the same before and after a step of another root. */
  lemma OtherRootLeavesMine(q: Pass, cfg: Config, poll: RootPoll, now: Time, root: string, mine: set<string>)
    requires poll.root != root && Disjoint(cfg, poll, root, mine) && Owned(q.g, RepoKey(cfg, root), mine)
    ensures var h := RootStep(q, cfg, poll, now).g;
            Owned(h, RepoKey(cfg, root), mine) && SameRows(q.g.rows, h.rows, mine)
  {
    var rk := RepoKey(cfg, poll.root);
    RepoKeyInjective(cfg, poll.root, root);
    if poll.listing.Some? && poll.repoOk {
      var first := TreeLoop(UpsertRepo(q.g, cfg, poll, now), [], []);
      var wts := ParseWorktreeList(poll.listing.value);
      TreesLeaveMine(first, cfg, poll, wts, 0, now, RepoKey(cfg, root), mine);
      var l := Trees(first, cfg, poll, wts, 0, now);
      var gone := GoneKeys(l.g.order, l.g.rows, rk, l.seen);
      forall k | k in mine ensures k !in gone {
        GoneExactly(l.g.order, l.g.rows, rk, l.seen, k);
      }
      var cut := match poll.mark case Marked => gone case Stopped(done) => Prefix(gone, done);
      StampAllExactly(l.g.rows, cut, now);
      ForgetAllExactly(l.g.(rows := StampAll(l.g.rows, gone, now)), gone);
    }
  }

  lemma {:induction false} TreesLeaveMine(l: TreeLoop, cfg: Config, poll: RootPoll, wts: seq<Worktree>, i: nat,
                                          now: Time, repoKey: string, mine: set<string>)
    requires i <= |wts| && ListedKeysIn(cfg, wts, mine, false) && RepoKey(cfg, poll.root) != repoKey && Owned(l.g, repoKey, mine)
    ensures var h := Trees(l, cfg, poll, wts, i, now).g;
            Owned(h, repoKey, mine) && SameRows(l.g.rows, h.rows, mine)
    decreases |wts| - i
  {
    if i < |wts| {
      var l1 := TreeStep(l, cfg, poll, wts[i], i, now);
      TreesLeaveMine(l1, cfg, poll, wts, i + 1, now, repoKey, mine);
    }
  }

  /** A root that fails early keeps every one of its rows untouched through the whole pass. */
  lemma {:induction false} FailedRootRowsUntouched(q: Pass, cfg: Config, polls: seq<RootPoll>, now: Time, root: string,
                                                   mine: set<string>)
    requires Owned(q.g, RepoKey(cfg, root), mine)
    requires forall i :: 0 <= i < |polls| ==> Disjoint(cfg, polls[i], root, mine)
    requires forall i :: 0 <= i < |polls| && polls[i].root == root ==> FailsEarly(polls[i])
    ensures SameRows(q.g.rows, Passes(q, cfg, polls, now).g.rows, mine)
    decreases polls
  {
    if polls != [] {
      var poll, rest := polls[0], polls[1..];
      assert Disjoint(cfg, poll, root, mine);
      assert forall i :: 0 <= i < |rest| ==> rest[i] == polls[i + 1];
      var q1 := RootStep(q, cfg, poll, now);
      if poll.root != root {
        OtherRootLeavesMine(q, cfg, poll, now, root, mine);
      }
      FailedRootRowsUntouched(q1, cfg, rest, now, root, mine);
    }
  }

  lemma {:induction false} TreesStaleNothing(l: TreeLoop, cfg: Config, poll: RootPoll, wts: seq<Worktree>, i: nat,
                                             now: Time, k: string)
    requires i <= |wts| && k in l.g.rows && l.g.rows[k].stale.None?
    ensures var h := Trees(l, cfg, poll, wts, i, now).g.rows; k in h && h[k].stale.None?
    decreases |wts| - i
  {
    if i < |wts| {
      TreesStaleNothing(TreeStep(l, cfg, poll, wts[i], i, now), cfg, poll, wts, i + 1, now, k);
    }
  }

  lemma {:induction false} TreesReportFailure(l: TreeLoop, cfg: Config, poll: RootPoll, wts: seq<Worktree>, i: nat, now: Time)
    requires i <= |wts| && (l.errs != [] || exists j :: i <= j < |wts| && !wts[j].bare && !poll.treeOk(j))
    ensures Trees(l, cfg, poll, wts, i, now).errs != []
    decreases |wts| - i
  {
    if i < |wts| {
      TreesReportFailure(TreeStep(l, cfg, poll, wts[i], i, now), cfg, poll, wts, i + 1, now);
    }
  }

  /** When any worktree of a root fails to upsert, that root's step marks no live row stale. */
  lemma FailedUpsertStalesNothing(q: Pass, cfg: Config, poll: RootPoll, now: Time, j: nat, k: string)
    requires poll.listing.Some? && poll.repoOk
    requires var wts := ParseWorktreeList(poll.listing.value); j < |wts| && !wts[j].bare && !poll.treeOk(j)
    requires k in q.g.rows && q.g.rows[k].stale.None?
    ensures var h := RootStep(q, cfg, poll, now).g.rows; k in h && h[k].stale.None?
  {
    var first := TreeLoop(UpsertRepo(q.g, cfg, poll, now), [], []);
    var wts := ParseWorktreeList(poll.listing.value);
    TreesReportFailure(first, cfg, poll, wts, 0, now);
    TreesStaleNothing(first, cfg, poll, wts, 0, now, k);
  }
}
