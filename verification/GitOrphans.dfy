/**
 * Exactly when what the git plugin announced is what is live: plugins/git/store.go:116-151 can stop half way,
 * and what its updates reached is then stale in the store and never announced as removed.
 */
module GitOrphans {
  import opened Options
  import opened GitPorcelain
  import opened GitReconcile
  import opened GitReplay

  /** The last thing that reached a worktree's row: an upsert, a mark that was announced, or a mark that stopped. */
  datatype Touch = Stored | Closed | Cut

  /** What one root's turn last did to the row of `k`; None when it left it alone. */
  function TurnTouch(q: Pass, cfg: Config, poll: RootPoll, now: Time, k: string): Option<Touch> {
    if poll.listing.None? || !poll.repoOk then None
    else
      var l := Trees(TreeLoop(UpsertRepo(q.g, cfg, poll, now), [], []), cfg, poll, ParseWorktreeList(poll.listing.value), 0, now);
      if k in l.seen then Some(Stored)
      else if l.errs != [] then None
      else MarkTouch(l.g, cfg, poll, l.seen, k)
  }

  function MarkTouch(g: Git, cfg: Config, poll: RootPoll, seen: seq<string>, k: string): Option<Touch> {
    var gone := GoneKeys(g.order, g.rows, RepoKey(cfg, poll.root), seen);
    match poll.mark
    case Marked => if k in gone then Some(Closed) else None
    case Stopped(done) => if k in Prefix(gone, done) then Some(Cut) else None
  }

  function Or(t: Option<Touch>, before: Option<Touch>): Option<Touch> { if t.Some? then t else before }

  function PassesTouch(q: Pass, cfg: Config, polls: seq<RootPoll>, now: Time, before: Option<Touch>, k: string): Option<Touch>
    decreases polls
  {
    if polls == [] then before
    else PassesTouch(RootStep(q, cfg, polls[0], now), cfg, polls[1..], now, Or(TurnTouch(q, cfg, polls[0], now, k), before), k)
  }

  /** The last touch of `k` in a run; a restart touches no row. */
  function LastTouch(cfg: Config, steps: seq<Step>, k: string): Option<Touch> {
    if steps == [] then None
    else
      var init, last := steps[..|steps| - 1], steps[|steps| - 1];
      match last
      case Poll(polls, now) => PassesTouch(Pass(Run(cfg, init), 0, []), cfg, polls, now, LastTouch(cfg, init, k), k)
      case Restart => LastTouch(cfg, init, k)
  }

  /** The last turn that stored or marked `k` was a stopped mark that had reached it. */
  predicate HalfMarked(cfg: Config, steps: seq<Step>, k: string) { LastTouch(cfg, steps, k) == Some(Cut) }

  // ---------------------------------------------------------------- what each touch leaves

  predicate LiveRow(rows: map<string, Row>, k: string) { k in rows && rows[k].stale.None? }

  predicate Fate(v: map<string, Visible>, rows: map<string, Row>, t: Option<Touch>, k: string) {
    && (LiveRow(rows, k) <==> t == Some(Stored))
    && (k in v <==> t == Some(Stored) || t == Some(Cut))
  }

  const NOTHING := Promise(false, false, false)

  lemma StoreFate(g: Git, n: Node, now: Time, t: Option<Touch>, k: string)
    requires Good(g, NOTHING) && Fate(View(g.events), g.rows, t, k)
    ensures var h := EmitIfChanged(UpsertWorktree(g, n, now), n);
            Fate(View(h.events), h.rows, if n.key == k then Some(Stored) else t, k)
  {
    ViewAppend(g.events, Updated(n));
  }

  /** The touch of `k` part way through a listing. */
  function LoopTouch(seen: seq<string>, t: Option<Touch>, k: string): Option<Touch> { if k in seen then Some(Stored) else t }

  lemma SeenTouch(seen: seq<string>, key: string, t: Option<Touch>, k: string)
    ensures LoopTouch(seen + [key], t, k) == if key == k then Some(Stored) else LoopTouch(seen, t, k)
  {}

  lemma TreeStepFate(l: TreeLoop, cfg: Config, poll: RootPoll, wt: Worktree, i: nat, now: Time, t: Option<Touch>, k: string)
    requires Good(l.g, NOTHING) && Fate(View(l.g.events), l.g.rows, LoopTouch(l.seen, t, k), k)
    ensures var h := TreeStep(l, cfg, poll, wt, i, now);
            Fate(View(h.g.events), h.g.rows, LoopTouch(h.seen, t, k), k)
  {
    if !wt.bare && poll.treeOk(i) {
      var n := WorktreeNode(cfg, poll, wt);
      StoreFate(l.g, n, now, LoopTouch(l.seen, t, k), k);
      SeenTouch(l.seen, n.key, t, k);
    }
  }

  lemma {:induction false} TreesFate(l: TreeLoop, cfg: Config, poll: RootPoll, wts: seq<Worktree>, i: nat, now: Time,
                                     t: Option<Touch>, k: string)
    requires i <= |wts| && Good(l.g, NOTHING)
    requires Fate(View(l.g.events), l.g.rows, LoopTouch(l.seen, t, k), k)
    ensures var h := Trees(l, cfg, poll, wts, i, now);
            Fate(View(h.g.events), h.g.rows, LoopTouch(h.seen, t, k), k)
    decreases |wts| - i
  {
    if i < |wts| {
      TreeStepKeeps(l, cfg, poll, wts[i], i, now, NOTHING);
      TreeStepFate(l, cfg, poll, wts[i], i, now, t, k);
      TreesFate(TreeStep(l, cfg, poll, wts[i], i, now), cfg, poll, wts, i + 1, now, t, k);
    }
  }

  lemma MarkFate(g: Git, cfg: Config, poll: RootPoll, seen: seq<string>, now: Time, t: Option<Touch>, k: string)
    requires Fate(View(g.events), g.rows, t, k)
    ensures var h := MarkStep(g, cfg, poll, seen, now);
            Fate(View(h.events), h.rows, Or(MarkTouch(g, cfg, poll, seen, k), t), k)
  {
    var gone := GoneKeys(g.order, g.rows, RepoKey(cfg, poll.root), seen);
    GoneExactly(g.order, g.rows, RepoKey(cfg, poll.root), seen, k);
    match poll.mark
    case Marked =>
      StampAllExactly(g.rows, gone, now);
      ForgetAllExactly(g.(rows := StampAll(g.rows, gone, now)), gone);
    case Stopped(done) =>
      StampAllExactly(g.rows, Prefix(gone, done), now);
  }

  lemma TurnFate(q: Pass, cfg: Config, poll: RootPoll, now: Time, t: Option<Touch>, k: string)
    requires Good(q.g, NOTHING) && Fate(View(q.g.events), q.g.rows, t, k)
    ensures var h := RootStep(q, cfg, poll, now).g;
            Good(h, NOTHING) && Fate(View(h.events), h.rows, Or(TurnTouch(q, cfg, poll, now, k), t), k)
  {
    RootKeeps(q, cfg, poll, now, NOTHING);
    if poll.listing.Some? && poll.repoOk {
      var wts := ParseWorktreeList(poll.listing.value);
      var first := TreeLoop(UpsertRepo(q.g, cfg, poll, now), [], []);
      TreesFate(first, cfg, poll, wts, 0, now, t, k);
      var l := Trees(first, cfg, poll, wts, 0, now);
      if l.errs == [] {
        MarkFate(l.g, cfg, poll, l.seen, now, LoopTouch(l.seen, t, k), k);
        SeenStays(l.g, cfg, poll, l.seen, k);
      }
    }
  }

  /** What a turn stored it does not mark. */
  lemma SeenStays(g: Git, cfg: Config, poll: RootPoll, seen: seq<string>, k: string)
    ensures k in seen ==> MarkTouch(g, cfg, poll, seen, k).None?
  {
    GoneExactly(g.order, g.rows, RepoKey(cfg, poll.root), seen, k);
  }

  lemma {:induction false} PassesFate(q: Pass, cfg: Config, polls: seq<RootPoll>, now: Time, t: Option<Touch>, k: string)
    requires Good(q.g, NOTHING) && Fate(View(q.g.events), q.g.rows, t, k)
    ensures var h := Passes(q, cfg, polls, now).g;
            Fate(View(h.events), h.rows, PassesTouch(q, cfg, polls, now, t, k), k)
    decreases polls
  {
    if polls != [] {
      TurnFate(q, cfg, polls[0], now, t, k);
      PassesFate(RootStep(q, cfg, polls[0], now), cfg, polls[1..], now, Or(TurnTouch(q, cfg, polls[0], now, k), t), k);
    }
  }

  lemma {:induction false} RunFate(cfg: Config, steps: seq<Step>, k: string)
    ensures Fate(View(Run(cfg, steps).events), Run(cfg, steps).rows, LastTouch(cfg, steps, k), k)
    decreases steps
  {
    if steps != [] {
      var init, last := steps[..|steps| - 1], steps[|steps| - 1];
      RunFate(cfg, init, k);
      RunKeeps(cfg, init, NOTHING);
      if last.Poll? {
        PassesFate(Pass(Run(cfg, init), 0, []), cfg, last.polls, last.now, LastTouch(cfg, init, k), k);
      }
    }
  }

  // ---------------------------------------------------------------- the results

  /**
   * Exactly what stands announced, in every run with any failing store calls and any restarts: the live
   * worktrees, and those whose last touch was a mark that stopped after reaching them.
   */
  lemma ViewExactly(cfg: Config, steps: seq<Step>, k: string)
    ensures k in View(Run(cfg, steps).events) <==> k in Live(Run(cfg, steps).rows) || HalfMarked(cfg, steps, k)
    ensures HalfMarked(cfg, steps, k) ==> k !in Live(Run(cfg, steps).rows)
  {
    RunFate(cfg, steps, k);
  }

  /** What was announced is what is live, field by field, if and only if no worktree was last touched by a stopped mark. */
  lemma ReplicaExactly(cfg: Config, steps: seq<Step>)
    requires forall s :: s in steps ==> CleanStep(s)
    ensures View(Run(cfg, steps).events) == Live(Run(cfg, steps).rows) <==> forall k :: !HalfMarked(cfg, steps, k)
  {
    var v, live := View(Run(cfg, steps).events), Live(Run(cfg, steps).rows);
    forall k ensures (k in v <==> k in live || HalfMarked(cfg, steps, k)) && (HalfMarked(cfg, steps, k) ==> k !in live) {
      ViewExactly(cfg, steps, k);
    }
    RunKeeps(cfg, steps, Promise(false, false, true));
    forall k | k in live ensures k in v && v[k] == live[k] {
      HashInjective(v[k], live[k]);
    }
    SameMaps(v, live);
  }

  /** Maps that agree where the second is defined are equal if and only if the first is defined nowhere else. */
  lemma SameMaps(v: map<string, Visible>, live: map<string, Visible>)
    requires forall k :: k in live ==> k in v && v[k] == live[k]
    ensures v == live <==> forall k :: k in v ==> k in live
  {}

  /** One mark, with nothing announced that is not live: it keeps that if and only if it completes or reaches no row. */
  lemma MarkLeavesNoneExactly(g: Git, cfg: Config, poll: RootPoll, seen: seq<string>, now: Time)
    requires Good(g, Promise(false, true, false))
    ensures var h := MarkStep(g, cfg, poll, seen, now);
            var gone := GoneKeys(g.order, g.rows, RepoKey(cfg, poll.root), seen);
            NoOrphans(View(h.events), h.rows) <==> poll.mark.Marked? || Prefix(gone, poll.mark.done) == []
  {
    var gone := GoneKeys(g.order, g.rows, RepoKey(cfg, poll.root), seen);
    forall k ensures k in gone ==> LiveRow(g.rows, k) {
      GoneExactly(g.order, g.rows, RepoKey(cfg, poll.root), seen, k);
    }
    match poll.mark
    case Marked => MarkKeeps(g, cfg, poll, seen, now, Promise(false, true, false));
    case Stopped(done) =>
      StampAllExactly(g.rows, Prefix(gone, done), now);
      if Prefix(gone, done) != [] {
        var k := Prefix(gone, done)[0];
        assert k in Prefix(gone, done) && k in gone;
      }
  }
}
