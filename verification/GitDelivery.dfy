/**
 * What a subscriber of the git stream holds when emits can be lost: plugins/git/reconcile.go:145-157 stores
 * the hash before it emits and :206-218 drops the error, and nothing is sent twice.
 */
module GitDelivery {
  import opened Options
  import opened Delivery
  import opened GitPorcelain
  import opened GitReconcile
  import opened GitReplay
  import opened GitOrphans

  function MsgOf(e: Event): Msg<Visible> {
    match e
    case Updated(n) => Msg(n.key, Some(n.vis))
    case Removed(k) => Msg(k, None)
  }

  /** Every emit of a run, in order. */
  function Log(events: seq<Event>): (log: seq<Msg<Visible>>)
    ensures |log| == |events|
  {
    if events == [] then [] else Log(events[..|events| - 1]) + [MsgOf(events[|events| - 1])]
  }

  /** What the subscriber holds of a worktree, given which emits of the run got through. */
  function Told(g: Git, sent: nat -> bool, k: string): Option<Visible> { Held(Log(g.events), sent, k) }

  /** The subscriber holds of a worktree exactly its live row, or nothing where there is none. */
  predicate HoldsLive(g: Git, sent: nat -> bool, k: string) { Told(g, sent, k) == Entry(Live(g.rows), k) }

  lemma LogMore(events: seq<Event>, e: Event)
    ensures Log(events + [e]) == Log(events) + [MsgOf(e)]
  {
    assert (events + [e])[..|events|] == events;
  }

  /** The view folded from every emit is what was announced. */
  lemma {:induction false} AnnouncedIsView(events: seq<Event>, k: string)
    ensures Announced(Log(events), k) == Entry(View(events), k)
  {
    if events != [] {
      var init, last := events[..|events| - 1], events[|events| - 1];
      AnnouncedIsView(init, k);
      OneMore(Log(init), MsgOf(last), _ => true, k);
    }
  }

  // ---------------------------------------------------------------- exactly what is held

  /**
   * In every run, the subscriber's entry is the announced one if and only if the last emit about the key got
   * through or said nothing new.
   */
  lemma ToldIsAnnouncedExactly(cfg: Config, steps: seq<Step>, sent: nat -> bool, k: string)
    ensures var g := Run(cfg, steps);
            Told(g, sent, k) == Entry(View(g.events), k) <==> !Missed(Log(g.events), sent, k)
  {
    AnnouncedIsView(Run(cfg, steps).events, k);
    HeldIsAnnouncedExactly(Log(Run(cfg, steps).events), sent, k);
  }

  /** The one condition on a key: how its last emit fared, or, after a stopped mark, whether it was never heard of at all. */
  ghost predicate Right(cfg: Config, steps: seq<Step>, sent: nat -> bool, k: string) {
    var log := Log(Run(cfg, steps).events);
    if HalfMarked(cfg, steps, k) then NeverHeard(log, sent, k) else !Missed(log, sent, k)
  }

  /** What was announced of a worktree is its live row, except after a stopped mark, when it is a row no longer live. */
  lemma AnnouncedIsLive(cfg: Config, steps: seq<Step>, k: string)
    requires forall s :: s in steps ==> CleanStep(s)
    ensures var g := Run(cfg, steps);
            && (!HalfMarked(cfg, steps, k) ==> Entry(View(g.events), k) == Entry(Live(g.rows), k))
            && (HalfMarked(cfg, steps, k) ==> Entry(View(g.events), k).Some? && Entry(Live(g.rows), k).None?)
  {
    GitOrphans.ViewExactly(cfg, steps, k);
    RunKeeps(cfg, steps, Promise(false, false, true));
    var g := Run(cfg, steps);
    if k in Live(g.rows) {
      HashInjective(View(g.events)[k], Live(g.rows)[k]);
    }
  }

  /**
   * For every run, with any store failures, any lost emits and any restarts: the subscriber holds of a
   * worktree exactly what is live if and only if its last emit got through or said nothing new, or, where
   * a stopped mark was the last to reach it, the subscriber never heard of it.
   */
  lemma SubscriberExactly(cfg: Config, steps: seq<Step>, sent: nat -> bool, k: string)
    requires forall s :: s in steps ==> CleanStep(s)
    ensures HoldsLive(Run(cfg, steps), sent, k) <==> Right(cfg, steps, sent, k)
  {
    var g := Run(cfg, steps);
    AnnouncedIsLive(cfg, steps, k);
    AnnouncedIsView(g.events, k);
    HeldIsExactly(Log(g.events), sent, k, Entry(Live(g.rows), k));
  }

  /** The subscriber's replica is exact, field by field, if and only if that holds of every worktree. */
  lemma ReplicaExactly(cfg: Config, steps: seq<Step>, sent: nat -> bool)
    requires forall s :: s in steps ==> CleanStep(s)
    ensures (forall k :: HoldsLive(Run(cfg, steps), sent, k)) <==> forall k :: Right(cfg, steps, sent, k)
  {
    if forall k :: HoldsLive(Run(cfg, steps), sent, k) {
      forall k ensures Right(cfg, steps, sent, k) {
        assert HoldsLive(Run(cfg, steps), sent, k);
        SubscriberExactly(cfg, steps, sent, k);
      }
    } else {
      var k :| !HoldsLive(Run(cfg, steps), sent, k);
      SubscriberExactly(cfg, steps, sent, k);
    }
  }

  // ---------------------------------------------------------------- what is sent again

  /** A worktree whose announced state has not changed is not sent again, held or not. */
  lemma LostUpdateStays(cfg: Config, steps: seq<Step>, sent: nat -> bool, n: Node, now: Time)
    requires forall s :: s in steps ==> s.Poll? && CleanStep(s)
    requires CleanVisible(n.vis) && Entry(View(Run(cfg, steps).events), n.key) == Some(n.vis)
    ensures var g := Run(cfg, steps);
            Told(EmitIfChanged(UpsertWorktree(g, n, now), n), sent, n.key) == Told(g, sent, n.key)
  {
    AnnouncedExactlyOnChange(cfg, steps, n, now);
    assert Run(cfg, steps).events + [] == Run(cfg, steps).events;
  }

  /** Some turn of a pass stores the worktree. */
  predicate StoredIn(q: Pass, cfg: Config, polls: seq<RootPoll>, now: Time, k: string)
    decreases polls
  {
    polls != [] && (TurnTouch(q, cfg, polls[0], now, k) == Some(Stored) || StoredIn(RootStep(q, cfg, polls[0], now), cfg, polls[1..], now, k))
  }

  lemma EmitAbout(g: Git, n: Node, now: Time, sent: nat -> bool, k: string)
    requires n.key != k
    ensures Told(EmitIfChanged(UpsertWorktree(g, n, now), n), sent, k) == Told(g, sent, k)
  {
    LogMore(g.events, Updated(n));
    OneMore(Log(g.events), MsgOf(Updated(n)), sent, k);
  }

  lemma {:induction false} TreesTold(l: TreeLoop, cfg: Config, poll: RootPoll, wts: seq<Worktree>, i: nat, now: Time,
                                     sent: nat -> bool, k: string)
    requires i <= |wts| && k !in Trees(l, cfg, poll, wts, i, now).seen
    ensures Told(Trees(l, cfg, poll, wts, i, now).g, sent, k) == Told(l.g, sent, k) && k !in l.seen
    decreases |wts| - i
  {
    if i < |wts| {
      TreesTold(TreeStep(l, cfg, poll, wts[i], i, now), cfg, poll, wts, i + 1, now, sent, k);
      if !wts[i].bare && poll.treeOk(i) {
        var n := WorktreeNode(cfg, poll, wts[i]);
        assert n.key in l.seen + [n.key];
        assert k !in l.seen + [n.key];
        EmitAbout(l.g, n, now, sent, k);
      }
    }
  }

  lemma {:induction false} ForgetTold(g: Git, gone: seq<string>, sent: nat -> bool, k: string)
    requires k !in gone
    ensures Told(ForgetAll(g, gone), sent, k) == Told(g, sent, k)
  {
    if gone != [] {
      var init, last := gone[..|gone| - 1], gone[|gone| - 1];
      assert last in gone && k !in init;
      ForgetTold(g, init, sent, k);
      LogMore(ForgetAll(g, init).events, Removed(last));
      OneMore(Log(ForgetAll(g, init).events), MsgOf(Removed(last)), sent, k);
    }
  }

  lemma MarkTold(g: Git, cfg: Config, poll: RootPoll, seen: seq<string>, now: Time, sent: nat -> bool, k: string)
    requires !LiveRow(g.rows, k)
    ensures Told(MarkStep(g, cfg, poll, seen, now), sent, k) == Told(g, sent, k) && MarkTouch(g, cfg, poll, seen, k).None?
  {
    var gone := GoneKeys(g.order, g.rows, RepoKey(cfg, poll.root), seen);
    GoneExactly(g.order, g.rows, RepoKey(cfg, poll.root), seen, k);
    if poll.mark.Marked? {
      ForgetTold(g.(rows := StampAll(g.rows, gone, now)), gone, sent, k);
    }
  }

  /** A turn that does not store a worktree that is not live sends nothing about it. */
  lemma TurnTold(q: Pass, cfg: Config, poll: RootPoll, now: Time, t: Option<Touch>, sent: nat -> bool, k: string)
    requires Good(q.g, NOTHING) && Fate(View(q.g.events), q.g.rows, t, k) && t != Some(Stored)
    requires TurnTouch(q, cfg, poll, now, k) != Some(Stored)
    ensures Told(RootStep(q, cfg, poll, now).g, sent, k) == Told(q.g, sent, k) && TurnTouch(q, cfg, poll, now, k).None?
  {
    if poll.listing.Some? && poll.repoOk {
      var wts := ParseWorktreeList(poll.listing.value);
      var first := TreeLoop(UpsertRepo(q.g, cfg, poll, now), [], []);
      var l := Trees(first, cfg, poll, wts, 0, now);
      TreesFate(first, cfg, poll, wts, 0, now, t, k);
      TreesTold(first, cfg, poll, wts, 0, now, sent, k);
      MarkTold(l.g, cfg, poll, l.seen, now, sent, k);
    }
  }

  lemma {:induction false} PassesTold(q: Pass, cfg: Config, polls: seq<RootPoll>, now: Time, t: Option<Touch>,
                                      sent: nat -> bool, k: string)
    requires Good(q.g, NOTHING) && Fate(View(q.g.events), q.g.rows, t, k) && t != Some(Stored)
    requires !StoredIn(q, cfg, polls, now, k)
    ensures Told(Passes(q, cfg, polls, now).g, sent, k) == Told(q.g, sent, k) && PassesTouch(q, cfg, polls, now, t, k) == t
    decreases polls
  {
    if polls != [] {
      TurnTold(q, cfg, polls[0], now, t, sent, k);
      TurnFate(q, cfg, polls[0], now, t, k);
      PassesTold(RootStep(q, cfg, polls[0], now), cfg, polls[1..], now, t, sent, k);
    }
  }

  /** The step stores the worktree. */
  predicate StepStores(cfg: Config, before: seq<Step>, step: Step, k: string) {
    step.Poll? && StoredIn(Pass(Run(cfg, before), 0, []), cfg, step.polls, step.now, k)
  }

  /** Some step of `later`, after `before`, stores the worktree. */
  predicate EverStored(cfg: Config, before: seq<Step>, later: seq<Step>, k: string) {
    later != [] &&
    var n := |later| - 1;
    EverStored(cfg, before, later[..n], k) || StepStores(cfg, before + later[..n], later[n], k)
  }

  lemma StepTold(cfg: Config, steps: seq<Step>, step: Step, sent: nat -> bool, k: string)
    requires LastTouch(cfg, steps, k) != Some(Stored) && !StepStores(cfg, steps, step, k)
    ensures Told(Run(cfg, steps + [step]), sent, k) == Told(Run(cfg, steps), sent, k)
    ensures LastTouch(cfg, steps + [step], k) == LastTouch(cfg, steps, k)
  {
    assert (steps + [step])[..|steps|] == steps;
    if step.Poll? {
      RunFate(cfg, steps, k);
      RunKeeps(cfg, steps, NOTHING);
      PassesTold(Pass(Run(cfg, steps), 0, []), cfg, step.polls, step.now, LastTouch(cfg, steps, k), sent, k);
    }
  }

  /**
   * A lost removal is for good: from the moment a worktree is not live, nothing is sent about it until it
   * is stored again, through any polls, failures and restarts. What the subscriber holds of it stays.
   */
  lemma {:induction false} LostRemovalStays(cfg: Config, steps: seq<Step>, later: seq<Step>, sent: nat -> bool, k: string)
    requires k !in Live(Run(cfg, steps).rows) && !EverStored(cfg, steps, later, k)
    ensures Told(Run(cfg, steps + later), sent, k) == Told(Run(cfg, steps), sent, k)
    ensures LastTouch(cfg, steps + later, k) == LastTouch(cfg, steps, k) != Some(Stored)
    decreases later
  {
    RunFate(cfg, steps, k);
    if later == [] {
      assert steps + later == steps;
    } else {
      var n := |later| - 1;
      LostRemovalStays(cfg, steps, later[..n], sent, k);
      StepTold(cfg, steps + later[..n], later[n], sent, k);
      assert steps + later == steps + later[..n] + [later[n]];
    }
  }

  // ---------------------------------------------------------------- a restart sends again

  /** The last emit about the key is at or after position `base`. */
  predicate About(events: seq<Event>, base: nat, k: string) { LastAbout(Log(events), k) >= base }

  /** The gate knows the key only if an emit about it came at or after `base`: what a restart at `base` leaves. */
  predicate Gated(g: Git, base: nat, k: string) {
    base <= |g.events| && (k in g.hashes ==> About(g.events, base, k))
  }

  predicate Follows(g: Git, h: Git, base: nat, k: string) {
    Gated(h, base, k) && (About(g.events, base, k) ==> About(h.events, base, k))
  }

  lemma AboutMore(events: seq<Event>, e: Event, base: nat, k: string)
    requires base <= |events|
    ensures About(events + [e], base, k) <==> About(events, base, k) || MsgOf(e).key == k
  {
    LogMore(events, e);
    OneMore(Log(events), MsgOf(e), _ => true, k);
  }

  lemma EmitGated(g: Git, n: Node, now: Time, base: nat, k: string)
    requires Gated(g, base, k)
    ensures var h := EmitIfChanged(UpsertWorktree(g, n, now), n);
            Follows(g, h, base, k) && (n.key == k ==> About(h.events, base, k))
  {
    AboutMore(g.events, Updated(n), base, k);
  }

  predicate LoopGated(l: TreeLoop, base: nat, k: string) {
    Gated(l.g, base, k) && (k in l.seen ==> About(l.g.events, base, k))
  }

  lemma TreeStepGated(l: TreeLoop, cfg: Config, poll: RootPoll, wt: Worktree, i: nat, now: Time, base: nat, k: string)
    requires LoopGated(l, base, k)
    ensures var h := TreeStep(l, cfg, poll, wt, i, now);
            LoopGated(h, base, k) && (About(l.g.events, base, k) ==> About(h.g.events, base, k))
  {
    EmitGated(l.g, WorktreeNode(cfg, poll, wt), now, base, k);
  }

  lemma {:induction false} TreesGated(l: TreeLoop, cfg: Config, poll: RootPoll, wts: seq<Worktree>, i: nat, now: Time,
                                      base: nat, k: string)
    requires i <= |wts| && LoopGated(l, base, k)
    ensures var h := Trees(l, cfg, poll, wts, i, now);
            LoopGated(h, base, k) && (About(l.g.events, base, k) ==> About(h.g.events, base, k))
    decreases |wts| - i
  {
    if i < |wts| {
      TreeStepGated(l, cfg, poll, wts[i], i, now, base, k);
      TreesGated(TreeStep(l, cfg, poll, wts[i], i, now), cfg, poll, wts, i + 1, now, base, k);
    }
  }

  lemma {:induction false} ForgetGated(g: Git, gone: seq<string>, base: nat, k: string)
    requires Gated(g, base, k)
    ensures Follows(g, ForgetAll(g, gone), base, k)
  {
    if gone != [] {
      var init, last := gone[..|gone| - 1], gone[|gone| - 1];
      ForgetGated(g, init, base, k);
      AboutMore(ForgetAll(g, init).events, Removed(last), base, k);
    }
  }

  lemma MarkGated(g: Git, cfg: Config, poll: RootPoll, seen: seq<string>, now: Time, base: nat, k: string)
    requires Gated(g, base, k)
    ensures Follows(g, MarkStep(g, cfg, poll, seen, now), base, k)
  {
    var gone := GoneKeys(g.order, g.rows, RepoKey(cfg, poll.root), seen);
    ForgetGated(g.(rows := StampAll(g.rows, gone, now)), gone, base, k);
  }

  lemma TurnGated(q: Pass, cfg: Config, poll: RootPoll, now: Time, base: nat, k: string)
    requires Gated(q.g, base, k)
    ensures var h := RootStep(q, cfg, poll, now).g;
            Follows(q.g, h, base, k) && (TurnTouch(q, cfg, poll, now, k) == Some(Stored) ==> About(h.events, base, k))
  {
    if poll.listing.Some? && poll.repoOk {
      var first := TreeLoop(UpsertRepo(q.g, cfg, poll, now), [], []);
      var wts := ParseWorktreeList(poll.listing.value);
      TreesGated(first, cfg, poll, wts, 0, now, base, k);
      var l := Trees(first, cfg, poll, wts, 0, now);
      MarkGated(l.g, cfg, poll, l.seen, now, base, k);
    }
  }

  lemma {:induction false} PassesGated(q: Pass, cfg: Config, polls: seq<RootPoll>, now: Time, base: nat, k: string)
    requires Gated(q.g, base, k)
    ensures var h := Passes(q, cfg, polls, now).g;
            Follows(q.g, h, base, k) && (StoredIn(q, cfg, polls, now, k) ==> About(h.events, base, k))
    decreases polls
  {
    if polls != [] {
      TurnGated(q, cfg, polls[0], now, base, k);
      PassesGated(RootStep(q, cfg, polls[0], now), cfg, polls[1..], now, base, k);
    }
  }

  lemma RunMore(cfg: Config, steps: seq<Step>, step: Step)
    ensures Run(cfg, steps + [step]) == Next(Run(cfg, steps), cfg, step)
  {
    assert (steps + [step])[..|steps|] == steps;
  }

  lemma StepGated(cfg: Config, steps: seq<Step>, step: Step, next: seq<Step>, base: nat, k: string)
    requires Gated(Run(cfg, steps), base, k) && next == steps + [step]
    ensures Follows(Run(cfg, steps), Run(cfg, next), base, k)
    ensures StepStores(cfg, steps, step, k) ==> About(Run(cfg, next).events, base, k)
  {
    RunMore(cfg, steps, step);
    if step.Poll? {
      PassesGated(Pass(Run(cfg, steps), 0, []), cfg, step.polls, step.now, base, k);
    }
  }

  lemma {:induction false} StepsGated(cfg: Config, before: seq<Step>, later: seq<Step>, all: seq<Step>, base: nat, k: string)
    requires Gated(Run(cfg, before), base, k) && all == before + later
    ensures Gated(Run(cfg, all), base, k) && (EverStored(cfg, before, later, k) ==> About(Run(cfg, all).events, base, k))
    decreases later
  {
    if later == [] {
      assert all == before;
    } else {
      var n := |later| - 1;
      var init := before + later[..n];
      StepsGated(cfg, before, later[..n], init, base, k);
      assert all == init + [later[n]];
      StepGated(cfg, init, later[n], all, base, k);
    }
  }

  /** After a restart, whatever is stored has been emitted since: the gate of the process before it is gone. */
  lemma RestartResends(cfg: Config, steps: seq<Step>, later: seq<Step>, all: seq<Step>, k: string)
    requires all == steps + [Restart] + later
    ensures var base, h := |Run(cfg, steps).events|, Run(cfg, all);
            Gated(h, base, k) && (EverStored(cfg, steps + [Restart], later, k) ==> About(h.events, base, k))
  {
    RunMore(cfg, steps, Restart);
    StepsGated(cfg, steps + [Restart], later, all, |Run(cfg, steps).events|, k);
  }

  /**
   * A restart heals a lost update: once the worktree is stored again after it, and the emits since then got
   * through, the subscriber holds its live row, whatever was lost before.
   */
  lemma RestartHeals(cfg: Config, steps: seq<Step>, later: seq<Step>, all: seq<Step>, sent: nat -> bool, k: string)
    requires all == steps + [Restart] + later && forall s :: s in all ==> CleanStep(s)
    requires EverStored(cfg, steps + [Restart], later, k) && !HalfMarked(cfg, all, k)
    requires forall j :: j >= |Run(cfg, steps).events| ==> sent(j)
    ensures HoldsLive(Run(cfg, all), sent, k)
  {
    RestartResends(cfg, steps, later, all, k);
    assert !Missed(Log(Run(cfg, all).events), sent, k);
    SubscriberExactly(cfg, all, sent, k);
  }

  // ---------------------------------------------------------------- a lost update, concretely

  lemma SecondPass(cfg: Config)
    ensures var g := Reconcile(FoundState(cfg), cfg, [FOUND], 1).g;
            g.events == FoundState(cfg).events && TreeKey(cfg, ONE_TREE) in Live(g.rows)
  {
    PrintedListSurvives([ONE_TREE]);
    var n := WorktreeNode(cfg, FOUND, ONE_TREE);
    var g := FoundState(cfg);
    var u := UpsertRepo(g, cfg, FOUND, 1);
    var h := EmitIfChanged(UpsertWorktree(u, n, 1), n);
    assert h.events == g.events;
    assert Trees(TreeLoop(u, [], []), cfg, FOUND, [ONE_TREE], 0, 1) == Trees(TreeLoop(h, [n.key], []), cfg, FOUND, [ONE_TREE], 1, 1);
    var gone := GoneKeys(h.order, h.rows, n.repoKey, [n.key]);
    forall k ensures k !in gone {
      GoneExactly(h.order, h.rows, n.repoKey, [n.key], k);
    }
    SomeMember(gone);
    assert Passes(Pass(g, 0, []), cfg, [FOUND], 1) == RootStep(Pass(g, 0, []), cfg, FOUND, 1);
  }

  /** One lost emit, and a live worktree the subscriber never hears of while it does not change, every mark complete. */
  lemma LostUpdateHidesLiveRow(cfg: Config, steps: seq<Step>, sent: nat -> bool)
    requires steps == [Poll([FOUND], 0), Poll([FOUND], 1)] && !sent(0)
    ensures var g, k := Run(cfg, steps), TreeKey(cfg, ONE_TREE);
            k in Live(g.rows) && Told(g, sent, k).None?
  {
    assert steps[..1] == [Poll([FOUND], 0)] && steps[..1][..0] == [];
    FoundPass(cfg);
    SecondPass(cfg);
    assert Run(cfg, steps[..1]) == FoundState(cfg);
    var n := WorktreeNode(cfg, FOUND, ONE_TREE);
    LogMore([], Updated(n));
    assert FoundState(cfg).events == [] + [Updated(n)];
    OneMore([], MsgOf(Updated(n)), sent, n.key);
    assert Log([]) + [MsgOf(Updated(n))] == [] + [MsgOf(Updated(n))];
  }
}
