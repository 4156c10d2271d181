/**
 * What the git plugin announces replicates the live rows (plugins/git/reconcile.go:49-191). `View` folds every
 * emit; `GitDelivery` says what a subscriber holds when emits are lost.
 */
module GitReplay {
  import opened Options
  import opened Text
  import opened GitPorcelain
  import opened GitReconcile

  // ---------------------------------------------------------------- what the hash distinguishes

  lemma LastField(x1: string, y1: string, x2: string, y2: string, c: char)
    requires x1 + [c] + y1 == x2 + [c] + y2 && c !in y1 && c !in y2
    ensures x1 == x2 && y1 == y2
  {
    var s := x1 + [c] + y1;
    assert s[|x1|] == c && forall j :: |x1| < j < |s| ==> s[j] == y1[j - |x1| - 1];
    assert s[|x2|] == c && forall j :: |x2| < j < |s| ==> s[j] == y2[j - |x2| - 1];
    assert |x1| == |x2|;
    assert x1 == s[..|x1|] && x2 == s[..|x2|] && y1 == s[|x1| + 1..] && y2 == s[|x2| + 1..];
  }

  function BranchHead(v: Visible): string { PtrStrBranch(v.branch) + "|" + v.head }

  lemma PtrStrInjective(p: Option<int>, q: Option<int>)
    requires PtrStr(p) == PtrStr(q)
    ensures p == q
  {
    if p.Some? && q.Some? {
      ItoaInjective(p.value, q.value);
    }
  }

  lemma NoBar(p: Option<int>)
    ensures '|' !in PtrStr(p)
  {}

  /** Two states hash alike exactly when flags and counts agree and `branch|head` is the same text. */
  lemma HashEqualExactly(a: Visible, b: Visible)
    ensures WorktreeHash(a) == WorktreeHash(b)
            <==> BranchHead(a) == BranchHead(b) && a.detached == b.detached && a.ahead == b.ahead && a.behind == b.behind
  {
    if WorktreeHash(a) == WorktreeHash(b) {
      NoBar(a.ahead); NoBar(b.ahead); NoBar(a.behind); NoBar(b.behind);
      var a1, b1 := BranchHead(a) + "|" + BoolStr(a.detached), BranchHead(b) + "|" + BoolStr(b.detached);
      var a2, b2 := a1 + "|" + PtrStr(a.ahead), b1 + "|" + PtrStr(b.ahead);
      assert WorktreeHash(a) == a2 + ['|'] + PtrStr(a.behind);
      assert WorktreeHash(b) == b2 + ['|'] + PtrStr(b.behind);
      LastField(a2, PtrStr(a.behind), b2, PtrStr(b.behind), '|');
      LastField(a1, PtrStr(a.ahead), b1, PtrStr(b.ahead), '|');
      LastField(BranchHead(a), BoolStr(a.detached), BranchHead(b), BoolStr(b.detached), '|');
      PtrStrInjective(a.ahead, b.ahead);
      PtrStrInjective(a.behind, b.behind);
      assert |BoolStr(a.detached)| == |BoolStr(b.detached)|;
    }
  }

  /** A commit id without '|' and a branch name without NUL. */
  predicate CleanVisible(v: Visible) {
    '|' !in v.head && (v.branch.Some? ==> '\0' !in v.branch.value)
  }

  lemma HashInjective(a: Visible, b: Visible)
    requires CleanVisible(a) && CleanVisible(b) && WorktreeHash(a) == WorktreeHash(b)
    ensures a == b
  {
    HashEqualExactly(a, b);
    LastField(PtrStrBranch(a.branch), a.head, PtrStrBranch(b.branch), b.head, '|');
    var nil := "\0nil";
    assert nil[0] == '\0';
  }

  /** Without those two conditions the gate can be fooled. */
  lemma HashCollides()
    ensures var a := Visible(Some("b"), "x|y", false, None, None);
            var b := Visible(Some("b|x"), "y", false, None, None);
            a != b && WorktreeHash(a) == WorktreeHash(b)
    ensures var a := Visible(None, "h", true, None, None);
            var b := Visible(Some("\0nil"), "h", true, None, None);
            a != b && WorktreeHash(a) == WorktreeHash(b)
  {
    var a := Visible(Some("b"), "x|y", false, None, None);
    var b := Visible(Some("b|x"), "y", false, None, None);
    assert BranchHead(a) == "b|x|y" == BranchHead(b);
    HashEqualExactly(a, b);
    assert a.head != b.head;
  }

  // ---------------------------------------------------------------- what was announced

  function Deliver(v: map<string, Visible>, e: Event): map<string, Visible> {
    match e
    case Updated(n) => v[n.key := n.vis]
    case Removed(k) => v - {k}
  }

  /** What was announced: the view of a subscriber to whom every emit arrives. */
  function View(events: seq<Event>): map<string, Visible> {
    if events == [] then map[] else Deliver(View(events[..|events| - 1]), events[|events| - 1])
  }

  lemma ViewAppend(events: seq<Event>, e: Event)
    ensures View(events + [e]) == Deliver(View(events), e)
  {
    assert (events + [e])[..|events|] == events;
  }

  function Live(rows: map<string, Row>): map<string, Visible> {
    map k | k in rows && rows[k].stale.None? :: rows[k].vis
  }

  // ---------------------------------------------------------------- runs

  /** A pass, or the process restarting: the tables and the stream stay, the hash gate starts empty. */
  datatype Step = Poll(polls: seq<RootPoll>, now: Time) | Restart

  function Next(g: Git, cfg: Config, s: Step): Git {
    match s
    case Poll(polls, now) => Reconcile(g, cfg, polls, now).g
    case Restart => g.(hashes := map[])
  }

  function Run(cfg: Config, steps: seq<Step>): Git {
    if steps == [] then EMPTY else Next(Run(cfg, steps[..|steps| - 1]), cfg, steps[|steps| - 1])
  }

  // ---------------------------------------------------------------- invariants

  /** Every live row is in the view with the same hash, and every gate entry is the hash of the view. */
  predicate Synced(v: map<string, Visible>, rows: map<string, Row>, hashes: map<string, string>) {
    && (forall k :: k in rows && rows[k].stale.None? ==> k in v && WorktreeHash(v[k]) == WorktreeHash(rows[k].vis))
    && (forall k :: k in hashes ==> k in v && hashes[k] == WorktreeHash(v[k]))
  }

  predicate GateComplete(v: map<string, Visible>, hashes: map<string, string>) {
    forall k :: k in v ==> k in hashes
  }

  predicate NoOrphans(v: map<string, Visible>, rows: map<string, Row>) {
    forall k :: k in v ==> k in rows && rows[k].stale.None?
  }

  predicate CleanState(v: map<string, Visible>, rows: map<string, Row>) {
    && (forall k :: k in rows ==> CleanVisible(rows[k].vis))
    && (forall k :: k in v ==> CleanVisible(v[k]))
  }

  /** The optional parts of the invariant, chosen by what the run is known to avoid. */
  datatype Promise = Promise(gate: bool, exact: bool, clean: bool)

  predicate Agree(v: map<string, Visible>, rows: map<string, Row>, hashes: map<string, string>, p: Promise) {
    && Synced(v, rows, hashes)
    && (p.gate ==> GateComplete(v, hashes))
    && (p.exact ==> NoOrphans(v, rows))
    && (p.clean ==> CleanState(v, rows))
  }

  predicate Good(g: Git, p: Promise) { Agree(View(g.events), g.rows, g.hashes, p) }

  // ---------------------------------------------------------------- every store operation keeps them

  lemma SyncedPut(v: map<string, Visible>, v': map<string, Visible>, rows: map<string, Row>, hashes: map<string,
                  string>, key: string, row: Row)
    requires Synced(v, rows, hashes)
    requires key in v' && WorktreeHash(v'[key]) == WorktreeHash(row.vis)
    requires v' == v[key := v'[key]]
    ensures Synced(v', rows[key := row], hashes[key := WorktreeHash(row.vis)])
  {}

  /** A stored row whose hash the view already has, or has just been sent. */
  lemma AgreePut(v: map<string, Visible>, v': map<string, Visible>, rows: map<string, Row>, hashes: map<string, string>,
                 key: string, row: Row, p: Promise)
    requires Agree(v, rows, hashes, p)
    requires key in v' && WorktreeHash(v'[key]) == WorktreeHash(row.vis) && row.stale.None?
    requires v' == v[key := v'[key]]
    requires p.clean ==> CleanVisible(row.vis) && CleanVisible(v'[key])
    ensures Agree(v', rows[key := row], hashes[key := WorktreeHash(row.vis)], p)
  {
    SyncedPut(v, v', rows, hashes, key, row);
  }

  lemma StoreAndEmitKeeps(g: Git, n: Node, now: Time, p: Promise)
    requires Good(g, p) && (p.clean ==> CleanVisible(n.vis))
    ensures Good(EmitIfChanged(UpsertWorktree(g, n, now), n), p)
  {
    var h := EmitIfChanged(UpsertWorktree(g, n, now), n);
    ViewAppend(g.events, Updated(n));
    var v, v' := View(g.events), View(h.events);
    assert v' == v[n.key := v'[n.key]];
    AgreePut(v, v', g.rows, g.hashes, n.key, Row(n.hostId, n.repoKey, n.path, n.vis, now, None), p);
  }

  lemma {:induction false} StampAllExactly(rows: map<string, Row>, gone: seq<string>, now: Time)
    ensures var r := StampAll(rows, gone, now);
            && r.Keys == rows.Keys
            && forall k :: k in rows ==>
                             r[k] == if k in gone && rows[k].stale.None? then rows[k].(stale := Some(now)) else rows[k]
  {
    if gone != [] {
      var init, last := gone[..|gone| - 1], gone[|gone| - 1];
      StampAllExactly(rows, init, now);
      assert gone == init + [last];
    }
  }

  lemma {:induction false} ForgetAllExactly(g: Git, gone: seq<string>)
    ensures var f := ForgetAll(g, gone);
            && f.rows == g.rows && f.order == g.order && f.repos == g.repos
            && (forall k :: k in f.hashes <==> k in g.hashes && k !in gone)
            && (forall k :: k in f.hashes ==> f.hashes[k] == g.hashes[k])
            && (forall k :: k in View(f.events) <==> k in View(g.events) && k !in gone)
            && (forall k :: k in View(f.events) ==> View(f.events)[k] == View(g.events)[k])
  {
    if gone != [] {
      var init, last := gone[..|gone| - 1], gone[|gone| - 1];
      ForgetAllExactly(g, init);
      assert gone == init + [last];
      ViewAppend(ForgetAll(g, init).events, Removed(last));
    }
  }

  lemma {:induction false} GoneExactly(order: seq<string>, rows: map<string, Row>, repoKey: string, keep: seq<string>, k: string)
    ensures k in GoneKeys(order, rows, repoKey, keep)
            <==> k in order && k in rows && rows[k].repoKey == repoKey && rows[k].stale.None? && k !in keep
  {
    if order != [] {
      GoneExactly(order[1..], rows, repoKey, keep, k);
    }
  }

  predicate Harmless(poll: RootPoll) { poll.mark != Marked ==> poll.mark == Stopped(0) }

  lemma MarkKeeps(g: Git, cfg: Config, poll: RootPoll, seen: seq<string>, now: Time, p: Promise)
    requires Good(g, p) && (p.exact ==> Harmless(poll))
    ensures Good(MarkStep(g, cfg, poll, seen, now), p)
  {
    var gone := GoneKeys(g.order, g.rows, RepoKey(cfg, poll.root), seen);
    match poll.mark
    case Marked =>
      StampAllExactly(g.rows, gone, now);
      ForgetAllExactly(g.(rows := StampAll(g.rows, gone, now)), gone);
    case Stopped(done) =>
      StampAllExactly(g.rows, Prefix(gone, done), now);
  }

  predicate CleanListing(wts: seq<Worktree>) {
    forall i :: 0 <= i < |wts| ==> '|' !in wts[i].head && '\0' !in wts[i].branch
  }

  lemma TreeStepKeeps(l: TreeLoop, cfg: Config, poll: RootPoll, wt: Worktree, i: nat, now: Time, p: Promise)
    requires Good(l.g, p) && (p.clean ==> '|' !in wt.head && '\0' !in wt.branch)
    ensures Good(TreeStep(l, cfg, poll, wt, i, now).g, p)
  {
    StoreAndEmitKeeps(l.g, WorktreeNode(cfg, poll, wt), now, p);
  }

  lemma {:induction false} TreesKeep(l: TreeLoop, cfg: Config, poll: RootPoll, wts: seq<Worktree>, i: nat, now: Time, p: Promise)
    requires i <= |wts| && Good(l.g, p) && (p.clean ==> CleanListing(wts))
    ensures Good(Trees(l, cfg, poll, wts, i, now).g, p)
    decreases |wts| - i
  {
    if i < |wts| {
      TreeStepKeeps(l, cfg, poll, wts[i], i, now, p);
      TreesKeep(TreeStep(l, cfg, poll, wts[i], i, now), cfg, poll, wts, i + 1, now, p);
    }
  }

  predicate Kept(poll: RootPoll, p: Promise) {
    && (p.exact ==> Harmless(poll))
    && (p.clean && poll.listing.Some? ==> CleanListing(ParseWorktreeList(poll.listing.value)))
  }

  lemma RootKeeps(q: Pass, cfg: Config, poll: RootPoll, now: Time, p: Promise)
    requires Good(q.g, p) && Kept(poll, p)
    ensures Good(RootStep(q, cfg, poll, now).g, p)
  {
    if poll.listing.Some? && poll.repoOk {
      var first := TreeLoop(UpsertRepo(q.g, cfg, poll, now), [], []);
      assert Good(first.g, p);
      var wts := ParseWorktreeList(poll.listing.value);
      TreesKeep(first, cfg, poll, wts, 0, now, p);
      var l := Trees(first, cfg, poll, wts, 0, now);
      MarkKeeps(l.g, cfg, poll, l.seen, now, p);
    }
  }

  lemma {:induction false} PassesKeep(q: Pass, cfg: Config, polls: seq<RootPoll>, now: Time, p: Promise)
    requires Good(q.g, p) && forall poll :: poll in polls ==> Kept(poll, p)
    ensures Good(Passes(q, cfg, polls, now).g, p)
    decreases polls
  {
    if polls != [] {
      RootKeeps(q, cfg, polls[0], now, p);
      PassesKeep(RootStep(q, cfg, polls[0], now), cfg, polls[1..], now, p);
    }
  }

  /** A run may take the step and still keep the promise. */
  ghost predicate Allowed(s: Step, p: Promise) {
    match s
    case Poll(polls, _) => forall poll :: poll in polls ==> Kept(poll, p)
    case Restart => !p.gate
  }

  lemma {:induction false} RunKeeps(cfg: Config, steps: seq<Step>, p: Promise)
    requires forall s :: s in steps ==> Allowed(s, p)
    ensures Good(Run(cfg, steps), p)
  {
    if steps != [] {
      var init, last := steps[..|steps| - 1], steps[|steps| - 1];
      RunKeeps(cfg, init, p);
      var g := Run(cfg, init);
      assert Allowed(last, p);
      match last
      case Poll(polls, now) => PassesKeep(Pass(g, 0, []), cfg, polls, now, p);
      case Restart =>
    }
  }

  // ---------------------------------------------------------------- the theorems

  /**
   * In every run, whatever store call fails, whenever the process restarts and however far a failing
   * stale-mark got, every live row has been announced, and none differs by hash from what was announced.
   */
  lemma LiveNeverMissing(cfg: Config, steps: seq<Step>)
    ensures var g := Run(cfg, steps);
            forall k :: k in Live(g.rows) ==>
                          k in View(g.events) && WorktreeHash(View(g.events)[k]) == WorktreeHash(Live(g.rows)[k])
  {
    RunKeeps(cfg, steps, Promise(false, false, false));
  }

  ghost predicate CleanStep(s: Step) {
    s.Poll? ==> forall poll :: poll in s.polls && poll.listing.Some? ==> CleanListing(ParseWorktreeList(poll.listing.value))
  }

  ghost predicate HarmlessStep(s: Step) {
    s.Poll? ==> forall poll :: poll in s.polls ==> Harmless(poll)
  }

  /** What was announced is the live rows and nothing else, restarts included, when no mark stops half way. */
  lemma ReplayExact(cfg: Config, steps: seq<Step>)
    requires forall s :: s in steps ==> CleanStep(s) && HarmlessStep(s)
    ensures View(Run(cfg, steps).events) == Live(Run(cfg, steps).rows)
  {
    RunKeeps(cfg, steps, Promise(false, true, true));
    var g := Run(cfg, steps);
    forall k | k in Live(g.rows)
      ensures View(g.events)[k] == Live(g.rows)[k]
    {
      HashInjective(View(g.events)[k], g.rows[k].vis);
    }
  }

  /** While the process lives, the gate holds exactly the live keys. */
  lemma GateExact(cfg: Config, steps: seq<Step>)
    requires forall s :: s in steps ==> s.Poll? && HarmlessStep(s)
    ensures Run(cfg, steps).hashes.Keys == Live(Run(cfg, steps).rows).Keys
  {
    RunKeeps(cfg, steps, Promise(true, true, false));
    var g := Run(cfg, steps);
    assert Agree(View(g.events), g.rows, g.hashes, Promise(true, true, false));
  }

  /** In a run without restarts, a stored worktree is announced exactly when that state is not the one last announced. */
  lemma AnnouncedExactlyOnChange(cfg: Config, steps: seq<Step>, n: Node, now: Time)
    requires forall s :: s in steps ==> s.Poll? && CleanStep(s)
    requires CleanVisible(n.vis)
    ensures var g := Run(cfg, steps);
            var h := EmitIfChanged(UpsertWorktree(g, n, now), n);
            h.events == g.events + if n.key in View(g.events) && View(g.events)[n.key] == n.vis then [] else [Updated(n)]
  {
    RunKeeps(cfg, steps, Promise(true, false, true));
    var g := Run(cfg, steps);
    if n.key in View(g.events) && WorktreeHash(View(g.events)[n.key]) == WorktreeHash(n.vis) {
      HashInjective(View(g.events)[n.key], n.vis);
    }
  }

  // A root with one worktree, and the same root found empty while the stale-mark breaks half way.
  const ONE_TREE := GitPorcelain.Worktree("/w", "", "h", false, false)
  const FOUND := RootPoll("/r", Some(Print(CanonicalAll([ONE_TREE]))), "s", true, (_) => true, (_) => None, Marked)
  const LOST := RootPoll("/r", Some(""), "s", true, (_) => true, (_) => None, Stopped(1))

  function FoundState(cfg: Config): Git {
    var n := WorktreeNode(cfg, FOUND, ONE_TREE);
    EmitIfChanged(UpsertWorktree(UpsertRepo(EMPTY, cfg, FOUND, 0), n, 0), n)
  }

  lemma FoundPass(cfg: Config)
    ensures Reconcile(EMPTY, cfg, [FOUND], 0).g == FoundState(cfg)
  {
    PrintedListSurvives([ONE_TREE]);
    var n := WorktreeNode(cfg, FOUND, ONE_TREE);
    var g := FoundState(cfg);
    var first := TreeLoop(UpsertRepo(EMPTY, cfg, FOUND, 0), [], []);
    assert Trees(first, cfg, FOUND, [ONE_TREE], 0, 0) == Trees(TreeLoop(g, [n.key], []), cfg, FOUND, [ONE_TREE], 1, 0);
    var gone := GoneKeys(g.order, g.rows, n.repoKey, [n.key]);
    forall k ensures k !in gone {
      GoneExactly(g.order, g.rows, n.repoKey, [n.key], k);
    }
    SomeMember(gone);
    assert Passes(Pass(EMPTY, 0, []), cfg, [FOUND], 0) == RootStep(Pass(EMPTY, 0, []), cfg, FOUND, 0);
  }

  lemma LostPass(cfg: Config)
    ensures var g := Reconcile(FoundState(cfg), cfg, [LOST], 1).g;
            && g.events == FoundState(cfg).events
            && forall k :: k in g.rows ==> g.rows[k].stale.Some?
  {
    ParseEmpty();
    var g := FoundState(cfg);
    var n := WorktreeNode(cfg, FOUND, ONE_TREE);
    var u := UpsertRepo(g, cfg, LOST, 1);
    assert Trees(TreeLoop(u, [], []), cfg, LOST, [], 0, 1) == TreeLoop(u, [], []);
    assert u.order == [n.key] && u.order[1..] == [];
    assert GoneKeys(u.order, u.rows, n.repoKey, []) == [n.key];
    StampAllExactly(u.rows, [n.key], 1);
    assert Passes(Pass(g, 0, []), cfg, [LOST], 1) == RootStep(Pass(g, 0, []), cfg, LOST, 1);
  }

  /** A stale-mark that fails after one update leaves announced a row that is no longer live. */
  lemma HalfMarkLeavesOrphan(cfg: Config)
    ensures var g := Run(cfg, [Poll([FOUND], 0), Poll([LOST], 1)]);
            View(g.events) != Live(g.rows)
  {
    var steps := [Poll([FOUND], 0), Poll([LOST], 1)];
    assert steps[..1] == [steps[0]] && steps[..1][..0] == [];
    FoundPass(cfg);
    LostPass(cfg);
    assert Run(cfg, steps[..1]) == FoundState(cfg);
    var n := WorktreeNode(cfg, FOUND, ONE_TREE);
    ViewAppend([], Updated(n));
    assert FoundState(cfg).events == [] + [Updated(n)];
    assert n.key in View(FoundState(cfg).events);
  }

  lemma SomeMember(gone: seq<string>)
    ensures gone == [] || exists k :: k in gone
  {
    if gone != [] {
      assert gone[0] in gone;
    }
  }

  lemma ParseEmpty()
    ensures ParseWorktreeList("") == []
  {
    assert Split("", '\n') == [""];
    BlankRead(Scan([], None));
  }
}
