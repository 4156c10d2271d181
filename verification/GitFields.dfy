/**
 * From git's text to rows and events: what plugins/git/reconcile.go:49-134 stores and announces of a listing,
 * said of the text itself.
 */
module GitFields {
  import opened Options
  import opened Sequences
  import opened Text
  import opened GitPorcelain
  import opened GitReconcile
  import opened GitReplay
  import opened GitMirror

  // ---------------------------------------------------------------- a listing as git prints it

  datatype Entry =
    | OnBranch(path: string, head: string, branch: string)
    | DetachedAt(path: string, head: string)
    | BareAt(path: string)

  function EntryText(e: Entry): string {
    match e
    case OnBranch(p, h, b) => "worktree " + p + "\n" + "HEAD " + h + "\n" + "branch refs/heads/" + b + "\n\n"
    case DetachedAt(p, h) => "worktree " + p + "\n" + "HEAD " + h + "\n" + "detached" + "\n\n"
    case BareAt(p) => "worktree " + p + "\n" + "bare" + "\n\n"
  }

  function ListingText(es: seq<Entry>): string {
    if es == [] then "" else EntryText(es[0]) + ListingText(es[1..])
  }

  predicate CleanEntry(e: Entry) {
    CleanField(e.path) && (!e.BareAt? ==> CleanField(e.head)) && (e.OnBranch? ==> CleanField(e.branch))
  }

  function StanzaOf(e: Entry): Stanza {
    match e
    case OnBranch(p, h, b) => Stanza(p, [Head(h), Ref("refs/heads/" + b)])
    case DetachedAt(p, h) => Stanza(p, [Head(h), Detached])
    case BareAt(p) => Stanza(p, [Bare])
  }

  function StanzasOf(es: seq<Entry>): seq<Stanza> { if es == [] then [] else [StanzaOf(es[0])] + StanzasOf(es[1..]) }

  function TreeOf(e: Entry): Worktree {
    match e
    case OnBranch(p, h, b) => Worktree(p, b, h, false, false)
    case DetachedAt(p, h) => Worktree(p, "", h, true, false)
    case BareAt(p) => Worktree(p, "", "", false, true)
  }

  function TreesOf(es: seq<Entry>): (r: seq<Worktree>)
    ensures |r| == |es| && forall i :: 0 <= i < |es| ==> r[i] == TreeOf(es[i])
  {
    if es == [] then [] else [TreeOf(es[0])] + TreesOf(es[1..])
  }

  lemma JoinOne(line: string, rest: seq<string>)
    requires rest != []
    ensures Join([line] + rest, '\n') == line + "\n" + Join(rest, '\n')
  {
    assert ([line] + rest)[1..] == rest;
  }

  lemma OneAttr(a: Attr)
    ensures AttrLines([a]) == [AttrLine(a)]
  {
    assert [a][1..] == [];
    assert AttrLines([a]) == [AttrLine(a)] + AttrLines([]);
  }

  lemma TwoAttrs(a: Attr, b: Attr)
    ensures AttrLines([a, b]) == [AttrLine(a), AttrLine(b)]
  {
    OneAttr(b);
    assert [a, b][1..] == [b];
    assert AttrLines([a, b]) == [AttrLine(a)] + AttrLines([b]);
  }

  /** A stanza of two attribute lines, and the rest of the text. */
  lemma TwoAttrText(p: string, a: Attr, b: Attr, doc: seq<string>)
    requires doc != []
    ensures Join(StanzaLines(Stanza(p, [a, b])) + doc, '\n')
         == "worktree " + p + "\n" + AttrLine(a) + "\n" + AttrLine(b) + "\n\n" + Join(doc, '\n')
  {
    TwoAttrs(a, b);
    assert "worktree" + " " + p == "worktree " + p;
    FourLines(StanzaLines(Stanza(p, [a, b])), "worktree " + p, AttrLine(a), AttrLine(b), doc);
  }

  lemma OneAttrText(p: string, a: Attr, doc: seq<string>)
    requires doc != []
    ensures Join(StanzaLines(Stanza(p, [a])) + doc, '\n') == "worktree " + p + "\n" + AttrLine(a) + "\n\n" + Join(doc, '\n')
  {
    OneAttr(a);
    assert "worktree" + " " + p == "worktree " + p;
    EndedTwo(StanzaLines(Stanza(p, [a])), "worktree " + p, AttrLine(a), doc);
  }

  lemma EndedTwo(lines: seq<string>, w: string, x: string, doc: seq<string>)
    requires doc != [] && lines == [w, x, ""]
    ensures Join(lines + doc, '\n') == w + "\n" + x + "\n\n" + Join(doc, '\n')
  {
    JoinOne("", doc);
    TwoLines(w, x, [""] + doc);
    assert lines + doc == [w] + ([x] + ([""] + doc));
    EndBlank(w + "\n" + x, Join(doc, '\n'));
  }

  lemma FourLines(lines: seq<string>, w: string, x: string, y: string, doc: seq<string>)
    requires doc != [] && lines == [w, x, y, ""]
    ensures Join(lines + doc, '\n') == w + "\n" + x + "\n" + y + "\n\n" + Join(doc, '\n')
  {
    EndedTwo(lines[1..], x, y, doc);
    JoinOne(w, lines[1..] + doc);
    assert lines + doc == [w] + (lines[1..] + doc);
    FrontLine(w, x, y, Join(doc, '\n'));
  }

  lemma EndBlank(head: string, tail: string)
    ensures head + "\n" + ("" + "\n" + tail) == head + "\n\n" + tail
  {}

  lemma BranchText(p: string, h: string, b: string, tail: string)
    ensures "worktree " + p + "\n" + AttrLine(Head(h)) + "\n" + AttrLine(Ref("refs/heads/" + b)) + "\n\n" + tail
         == EntryText(OnBranch(p, h, b)) + tail
  {
    HeadLine(h);
    assert AttrLine(Ref("refs/heads/" + b)) == "branch refs/heads/" + b;
    var head := "worktree " + p + "\n";
    assert head + "HEAD " + h + "\n" + "branch refs/heads/" + b == head + ("HEAD " + h) + "\n" + ("branch refs/heads/" + b);
  }

  lemma DetachedText(p: string, h: string, tail: string)
    ensures "worktree " + p + "\n" + AttrLine(Head(h)) + "\n" + AttrLine(Detached) + "\n\n" + tail == EntryText(DetachedAt(p, h)) + tail
  {
    HeadLine(h);
    var head := "worktree " + p + "\n";
    assert head + "HEAD " + h == head + ("HEAD " + h);
  }

  lemma EntryLines(e: Entry, doc: seq<string>)
    requires doc != []
    ensures Join(StanzaLines(StanzaOf(e)) + doc, '\n') == EntryText(e) + Join(doc, '\n')
  {
    match e
    case OnBranch(p, h, b) =>
      TwoAttrText(p, Head(h), Ref("refs/heads/" + b), doc);
      BranchText(p, h, b, Join(doc, '\n'));
    case DetachedAt(p, h) =>
      TwoAttrText(p, Head(h), Detached, doc);
      DetachedText(p, h, Join(doc, '\n'));
    case BareAt(p) => OneAttrText(p, Bare, doc);
  }

  lemma HeadLine(h: string)
    ensures AttrLine(Head(h)) == "HEAD " + h
  {}

  lemma TwoLines(a: string, b: string, end: seq<string>)
    requires end != []
    ensures Join([a] + ([b] + end), '\n') == a + "\n" + b + "\n" + Join(end, '\n')
  {
    JoinOne(b, end);
    JoinOne(a, [b] + end);
    Regroup(a + "\n", b + "\n", Join(end, '\n'));
  }

  lemma FrontLine(w: string, x: string, y: string, tail: string)
    ensures w + "\n" + (x + "\n" + y + "\n\n" + tail) == w + "\n" + x + "\n" + y + "\n\n" + tail
  {}

  lemma {:induction false} TextIsPrint(es: seq<Entry>)
    ensures ListingText(es) == Print(StanzasOf(es))
  {
    if es != [] {
      TextIsPrint(es[1..]);
      EntryLines(es[0], Document(StanzasOf(es[1..])));
      assert StanzasOf(es)[1..] == StanzasOf(es[1..]);
    }
  }

  lemma EntryMeans(e: Entry)
    ensures Meaning(StanzaOf(e)) == TreeOf(e)
    ensures CleanEntry(e) ==> CleanStanza(StanzaOf(e))
  {
    match e
    case OnBranch(p, h, b) => BranchMeans(p, h, b);
    case DetachedAt(p, h) => ApplyTwo(Worktree(p, "", "", false, false), Head(h), Detached);
    case BareAt(p) => ApplyOne(Worktree(p, "", "", false, false), Bare);
  }

  lemma ApplyOne(w: Worktree, a: Attr)
    ensures ApplyAll(w, [a]) == Apply(w, a)
  {
    assert [a][1..] == [];
    assert ApplyAll(Apply(w, a), []) == Apply(w, a);
  }

  lemma ApplyTwo(w: Worktree, a: Attr, b: Attr)
    ensures ApplyAll(w, [a, b]) == Apply(Apply(w, a), b)
  {
    assert [a, b][1..] == [b];
    ApplyOne(Apply(w, a), b);
  }

  lemma BranchMeans(p: string, h: string, b: string)
    ensures Meaning(StanzaOf(OnBranch(p, h, b))) == Worktree(p, b, h, false, false)
    ensures CleanField(b) ==> CleanField("refs/heads/" + b)
  {
    var ref := "refs/heads/" + b;
    ApplyTwo(Worktree(p, "", "", false, false), Head(h), Ref(ref));
    assert TrimPrefix(ref, "refs/heads/") == b;
    assert b != "" ==> ref[|ref| - 1] == b[|b| - 1];
  }

  lemma {:induction false} StanzasMean(es: seq<Entry>)
    requires forall e :: e in es ==> CleanEntry(e)
    ensures Meanings(StanzasOf(es)) == TreesOf(es) && forall s :: s in StanzasOf(es) ==> CleanStanza(s)
  {
    if es != [] {
      EntryMeans(es[0]);
      StanzasMean(es[1..]);
      assert StanzasOf(es)[1..] == StanzasOf(es[1..]);
    }
  }

  /** What git prints, line for line, is read as the worktrees it printed, in order. */
  lemma ListingReads(es: seq<Entry>)
    requires forall e :: e in es ==> CleanEntry(e)
    ensures ParseWorktreeList(ListingText(es)) == TreesOf(es)
  {
    TextIsPrint(es);
    StanzasMean(es);
    PorcelainRoundTrip(StanzasOf(es));
  }

  // ---------------------------------------------------------------- one listed worktree

  /** What every entry says of its branch, commit and detachment. */
  predicate EntrySays(e: Entry, v: Visible) {
    match e
    case OnBranch(_, h, b) => v.branch == (if b == "" then None else Some(b)) && v.head == h && !v.detached
    case DetachedAt(_, h) => v.branch == None && v.head == h && v.detached
    case BareAt(_) => false
  }

  /** No later worktree of the listing is stored under the key. */
  predicate LastOfKey(cfg: Config, poll: RootPoll, es: seq<Entry>, i: nat)
    requires i < |es|
  {
    forall j :: i < j < |es| && !es[j].BareAt? && poll.treeOk(j) ==> cfg.clean(es[j].path) != cfg.clean(es[i].path)
  }

  lemma SameKeys(cfg: Config, a: string, b: string)
    ensures cfg.hostId + ":" + cfg.clean(a) == cfg.hostId + ":" + cfg.clean(b) <==> cfg.clean(a) == cfg.clean(b)
  {
    var x, y := cfg.hostId + ":" + cfg.clean(a), cfg.hostId + ":" + cfg.clean(b);
    var n := |cfg.hostId| + 1;
    assert x[n..] == cfg.clean(a) && y[n..] == cfg.clean(b);
  }

  lemma LatestIs(cfg: Config, poll: RootPoll, es: seq<Entry>, i: nat)
    requires i < |es| && !es[i].BareAt? && poll.treeOk(i) && LastOfKey(cfg, poll, es, i)
    ensures Latest(cfg, poll, TreesOf(es), 0, cfg.hostId + ":" + cfg.clean(es[i].path)) == Some(i)
  {
    var wts := TreesOf(es);
    forall j | i < j < |wts| && Stored(poll, wts, j) ensures TreeKey(cfg, wts[j]) != TreeKey(cfg, wts[i]) {
      SameKeys(cfg, es[j].path, es[i].path);
    }
    LatestUnique(cfg, poll, wts, i, TreeKey(cfg, wts[i]));
  }

  lemma LatestUnique(cfg: Config, poll: RootPoll, wts: seq<Worktree>, i: nat, k: string)
    requires i < |wts| && Stored(poll, wts, i) && TreeKey(cfg, wts[i]) == k
    requires forall j :: i < j < |wts| && Stored(poll, wts, j) ==> TreeKey(cfg, wts[j]) != k
    ensures Latest(cfg, poll, wts, 0, k) == Some(i)
  {}

  /**
   * What a root's turn leaves of a listed worktree, whatever else in it fails: the row under host and cleaned
   * path is live and new, its fields are the printed ones, and its counts are those of rev-list run in its path.
   */
  lemma RootSays(q: Pass, cfg: Config, poll: RootPoll, now: Time, es: seq<Entry>, i: nat)
    requires poll.listing == Some(ListingText(es)) && poll.repoOk && forall e :: e in es ==> CleanEntry(e)
    requires i < |es| && !es[i].BareAt? && poll.treeOk(i) && LastOfKey(cfg, poll, es, i)
    ensures var h, k := RootStep(q, cfg, poll, now).g.rows, cfg.hostId + ":" + cfg.clean(es[i].path);
            && k in h && RowSays(cfg, poll, TreeOf(es[i]), h[k], now)
            && h[k].path == es[i].path && EntrySays(es[i], h[k].vis)
  {
    ListingReads(es);
    LatestIs(cfg, poll, es, i);
    TurnRow(q, cfg, poll, now, TreesOf(es), i, cfg.hostId + ":" + cfg.clean(es[i].path));
  }

  lemma TurnRow(q: Pass, cfg: Config, poll: RootPoll, now: Time, wts: seq<Worktree>, i: nat, k: string)
    requires poll.listing.Some? && ParseWorktreeList(poll.listing.value) == wts && poll.repoOk
    requires i < |wts| && Latest(cfg, poll, wts, 0, k) == Some(i)
    ensures var h := RootStep(q, cfg, poll, now).g.rows; k in h && RowSays(cfg, poll, wts[i], h[k], now)
  {
    var first := TreeLoop(UpsertRepo(q.g, cfg, poll, now), [], []);
    TreesStore(first, cfg, poll, wts, 0, now, k);
    NodeSays(cfg, poll, wts[i]);
    var l := Trees(first, cfg, poll, wts, 0, now);
    MarkSpares(l.g, cfg, poll, l.seen, now, k);
  }

  /** A mark leaves what the turn stored alone. */
  lemma MarkSpares(g: Git, cfg: Config, poll: RootPoll, seen: seq<string>, now: Time, k: string)
    requires k in seen && k in g.rows
    ensures var h := MarkStep(g, cfg, poll, seen, now).rows; k in h && h[k] == g.rows[k]
  {
    var gone := GoneKeys(g.order, g.rows, RepoKey(cfg, poll.root), seen);
    GoneExactly(g.order, g.rows, RepoKey(cfg, poll.root), seen, k);
    match poll.mark
    case Marked =>
      StampAllExactly(g.rows, gone, now);
      ForgetAllExactly(g.(rows := StampAll(g.rows, gone, now)), gone);
    case Stopped(done) => StampAllExactly(g.rows, Prefix(gone, done), now);
  }

  /** The counts of that row: as printed when rev-list printed two, absent when it failed. */
  lemma CountsStored(q: Pass, cfg: Config, poll: RootPoll, now: Time, es: seq<Entry>, i: nat, a: int, b: int)
    requires poll.listing == Some(ListingText(es)) && poll.repoOk && forall e :: e in es ==> CleanEntry(e)
    requires i < |es| && !es[i].BareAt? && poll.treeOk(i) && LastOfKey(cfg, poll, es, i) && In64(a) && In64(b)
    ensures var h, k := RootStep(q, cfg, poll, now).g.rows, cfg.hostId + ":" + cfg.clean(es[i].path);
            && k in h
            && (poll.revList(es[i].path) == Some(Itoa(a) + "\t" + Itoa(b) + "\n") ==>
                  h[k].vis.ahead == Some(a) && h[k].vis.behind == Some(b))
            && (poll.revList(es[i].path) == None ==> h[k].vis.ahead == None && h[k].vis.behind == None)
  {
    RootSays(q, cfg, poll, now, es, i);
    assert poll.revList(es[i].path) == Some(Itoa(a) + "\t" + Itoa(b) + "\n") ==> Printed(poll.revList(es[i].path).value, a, b);
  }

  // ---------------------------------------------------------------- the events of a turn

  /** The event describes that worktree. */
  ghost predicate Describes(cfg: Config, poll: RootPoll, wt: Worktree, n: Node) {
    && n.key == cfg.hostId + ":" + cfg.clean(wt.path) && n.hostId == cfg.hostId
    && n.repoKey == cfg.hostId + ":" + poll.root && n.repoSlug == poll.slug && n.path == wt.path
    && VisibleSays(poll.revList(wt.path), wt, n.vis)
  }

  ghost predicate FromListing(cfg: Config, poll: RootPoll, wts: seq<Worktree>, n: Node) {
    exists i :: 0 <= i < |wts| && Stored(poll, wts, i) && Describes(cfg, poll, wts[i], n)
  }

  /** Everything emitted since `from` describes a worktree of the listing. */
  ghost predicate AllFrom(cfg: Config, poll: RootPoll, wts: seq<Worktree>, events: seq<Event>, from: nat) {
    forall j :: from <= j < |events| && events[j].Updated? ==> FromListing(cfg, poll, wts, events[j].node)
  }

  /** An update of the key has been emitted since `from`. */
  predicate Told(events: seq<Event>, from: nat, k: string) {
    exists j :: from <= j < |events| && events[j].Updated? && events[j].node.key == k
  }

  /** Part way through a listing: nothing emitted before is lost, and what is stored and was not in the gate is told. */
  ghost predicate LoopTells(cfg: Config, poll: RootPoll, wts: seq<Worktree>, l: TreeLoop, start: Git, k: string) {
    && start.events <= l.g.events && AllFrom(cfg, poll, wts, l.g.events, |start.events|)
    && (k !in start.hashes && (k in l.seen || k in l.g.hashes) ==> Told(l.g.events, |start.events|, k))
  }

  lemma StepTells(cfg: Config, poll: RootPoll, wts: seq<Worktree>, l: TreeLoop, i: nat, now: Time, start: Git, k: string)
    requires i < |wts| && LoopTells(cfg, poll, wts, l, start, k)
    ensures LoopTells(cfg, poll, wts, TreeStep(l, cfg, poll, wts[i], i, now), start, k)
  {
    var h := TreeStep(l, cfg, poll, wts[i], i, now);
    if Stored(poll, wts, i) {
      var n := WorktreeNode(cfg, poll, wts[i]);
      NodeSays(cfg, poll, wts[i]);
      assert Describes(cfg, poll, wts[i], n);
      assert FromListing(cfg, poll, wts, n);
      var before, after := l.g.events, h.g.events;
      assert after == before || after == before + [Updated(n)];
      if after != before {
        assert after[|before|] == Updated(n);
      }
      if Told(before, |start.events|, k) {
        var j :| |start.events| <= j < |before| && before[j].Updated? && before[j].node.key == k;
        assert after[j] == before[j];
      }
    }
  }

  lemma {:induction false} TreesTell(cfg: Config, poll: RootPoll, wts: seq<Worktree>, l: TreeLoop, i: nat, now: Time, start: Git, k: string)
    requires i <= |wts| && LoopTells(cfg, poll, wts, l, start, k)
    ensures LoopTells(cfg, poll, wts, Trees(l, cfg, poll, wts, i, now), start, k)
    decreases |wts| - i
  {
    if i < |wts| {
      StepTells(cfg, poll, wts, l, i, now, start, k);
      TreesTell(cfg, poll, wts, TreeStep(l, cfg, poll, wts[i], i, now), i + 1, now, start, k);
    }
  }

  lemma {:induction false} RemovalsAfter(g: Git, gone: seq<string>)
    ensures var h := ForgetAll(g, gone).events;
            g.events <= h && forall j :: |g.events| <= j < |h| ==> h[j].Removed?
  {
    if gone != [] {
      RemovalsAfter(g, gone[..|gone| - 1]);
    }
  }

  lemma MarkTells(cfg: Config, poll: RootPoll, wts: seq<Worktree>, g: Git, seen: seq<string>, now: Time, from: nat, k: string)
    requires from <= |g.events| && AllFrom(cfg, poll, wts, g.events, from)
    ensures var h := MarkStep(g, cfg, poll, seen, now).events;
            g.events <= h && AllFrom(cfg, poll, wts, h, from) && (Told(g.events, from, k) ==> Told(h, from, k))
  {
    var gone := GoneKeys(g.order, g.rows, RepoKey(cfg, poll.root), seen);
    var h := MarkStep(g, cfg, poll, seen, now).events;
    RemovalsAfter(g.(rows := StampAll(g.rows, gone, now)), gone);
    assert forall j :: 0 <= j < |g.events| ==> h[j] == g.events[j];
    if Told(g.events, from, k) {
      var j :| from <= j < |g.events| && g.events[j].Updated? && g.events[j].node.key == k;
      assert h[j] == g.events[j];
    }
  }

  /**
   * Every update a root's turn emits describes a worktree of the printed listing, key, host, repository, slug,
   * path, branch, commit and counts; and a stored worktree that was not in the gate is told.
   */
  lemma EventsSay(q: Pass, cfg: Config, poll: RootPoll, now: Time, es: seq<Entry>, i: nat)
    requires poll.listing == Some(ListingText(es)) && poll.repoOk && forall e :: e in es ==> CleanEntry(e)
    requires i < |es| && !es[i].BareAt? && poll.treeOk(i)
    ensures var h, k := RootStep(q, cfg, poll, now).g.events, cfg.hostId + ":" + cfg.clean(es[i].path);
            && q.g.events <= h && AllFrom(cfg, poll, TreesOf(es), h, |q.g.events|)
            && (k !in q.g.hashes ==> Told(h, |q.g.events|, k))
  {
    ListingReads(es);
    assert Stored(poll, TreesOf(es), i);
    TurnEvents(q, cfg, poll, now, TreesOf(es), i, cfg.hostId + ":" + cfg.clean(es[i].path));
  }

  lemma TurnEvents(q: Pass, cfg: Config, poll: RootPoll, now: Time, wts: seq<Worktree>, i: nat, k: string)
    requires poll.listing.Some? && ParseWorktreeList(poll.listing.value) == wts && poll.repoOk
    requires i < |wts| && Stored(poll, wts, i) && TreeKey(cfg, wts[i]) == k
    ensures var h := RootStep(q, cfg, poll, now).g.events;
            q.g.events <= h && AllFrom(cfg, poll, wts, h, |q.g.events|) && (k !in q.g.hashes ==> Told(h, |q.g.events|, k))
  {
    var first := TreeLoop(UpsertRepo(q.g, cfg, poll, now), [], []);
    TreesTell(cfg, poll, wts, first, 0, now, first.g, k);
    TreesStore(first, cfg, poll, wts, 0, now, k);
    var l := Trees(first, cfg, poll, wts, 0, now);
    MarkTells(cfg, poll, wts, l.g, l.seen, now, |q.g.events|, k);
  }

  // ---------------------------------------------------------------- what else a turn reports

  function StoredBefore(poll: RootPoll, wts: seq<Worktree>, i: nat): nat
    requires i <= |wts|
  {
    if i == 0 then 0 else StoredBefore(poll, wts, i - 1) + if !wts[i - 1].bare && poll.treeOk(i - 1) then 1 else 0
  }

  /** One failure for each worktree that could not be stored, in order. */
  function FailedBefore(cfg: Config, poll: RootPoll, wts: seq<Worktree>, i: nat): seq<Failure>
    requires i <= |wts|
  {
    if i == 0 then []
    else
      var before := FailedBefore(cfg, poll, wts, i - 1);
      if !wts[i - 1].bare && !poll.treeOk(i - 1)
      then before + [TreeFailed(poll.root, cfg.hostId + ":" + cfg.clean(wts[i - 1].path))] else before
  }

  lemma {:induction false} TreesCount(l: TreeLoop, cfg: Config, poll: RootPoll, wts: seq<Worktree>, i: nat, now: Time)
    requires i <= |wts| && |l.seen| == StoredBefore(poll, wts, i) && l.errs == FailedBefore(cfg, poll, wts, i)
    ensures var h := Trees(l, cfg, poll, wts, i, now);
            && |h.seen| == StoredBefore(poll, wts, |wts|) && h.errs == FailedBefore(cfg, poll, wts, |wts|) && h.g.repos == l.g.repos
    decreases |wts| - i
  {
    if i < |wts| {
      var n := TreeStep(l, cfg, poll, wts[i], i, now);
      assert l.errs + [] == l.errs;
      TreesCount(n, cfg, poll, wts, i + 1, now);
    }
  }

  /**
   * What a root's turn reports: nothing when git fails, one failure when its own row cannot be stored, else its
   * row with slug and root, how many worktrees it stored, and one failure for each that it could not and for
   * a mark that stopped.
   */
  lemma RootReports(q: Pass, cfg: Config, poll: RootPoll, now: Time)
    ensures var h := RootStep(q, cfg, poll, now);
            && (poll.listing.None? ==> h == q)
            && (poll.listing.Some? && !poll.repoOk ==> h.g == q.g && h.total == q.total && h.errs == q.errs + [RepoFailed(poll.root)])
            && (poll.listing.Some? && poll.repoOk ==>
                  var wts := ParseWorktreeList(poll.listing.value);
                  var failed := FailedBefore(cfg, poll, wts, |wts|);
                  && h.g.repos == q.g.repos[cfg.hostId + ":" + poll.root := Repo(cfg.hostId, poll.slug, poll.root, now)]
                  && h.total == q.total + StoredBefore(poll, wts, |wts|)
                  && h.errs == q.errs + (if failed != [] then failed else if poll.mark.Marked? then [] else [MarkFailed(poll.root)]))
  {
    if poll.listing.Some? && poll.repoOk {
      var wts := ParseWorktreeList(poll.listing.value);
      var first := TreeLoop(UpsertRepo(q.g, cfg, poll, now), [], []);
      TreesCount(first, cfg, poll, wts, 0, now);
      var l := Trees(first, cfg, poll, wts, 0, now);
      var gone := GoneKeys(l.g.order, l.g.rows, RepoKey(cfg, poll.root), l.seen);
      ForgetAllExactly(l.g.(rows := StampAll(l.g.rows, gone, now)), gone);
      assert q.errs + [] == q.errs;
    }
  }
}
