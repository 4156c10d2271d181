/**
 * plugins/tmux/snapshot.go:27-85 beside plugins/tmux/control.go:91-115 and 205-209: the poll and the
 * control loop write the store concurrently. A poll is its single statements, and the server can go down
 * between any two of them.
 */
module TmuxRun {
  import opened Options
  import opened RowLists
  import opened Tmux

  /**
   * Where the one poll loop stands. `cut` is how many panes the poll had stored when the server last went
   * down after its listing; None when it has not.
   */
  datatype Phase =
    | Idle
    | Heard(list: seq<Listed>, now: int, cut: Option<nat>)
    | Storing(list: seq<Listed>, now: int, cut: Option<nat>, prev: map<string, Pane>, i: nat)
    | Closing(list: seq<Listed>, now: int, cut: Option<nat>, prev: map<string, Pane>, rest: set<string>)

  /** What the tmux.pane.updated and tmux.pane.closed events so far announce. */
  type View = map<string, Visible>

  datatype State = State(db: Panes, phase: Phase, view: View)

  datatype Step =
    | Hear(list: seq<Listed>, now: int)  // both tmux listings have returned
    | ReadLive                           // livePaneRows
    | Put                                // upsertPane of the next listed pane, and its event
    | EndList                            // the pane loop is over
    | Close(key: string)                 // markPaneStale of one vanished pane, and its event
    | Finish
    | Abort                              // a store call of the poll fails
    | FailedPoll(now: int)               // a tmux listing fails: markAllStale
    | ServerDown(now: int)               // the control loop's markAllStale

  function Outage(s: State, now: int): State {
    s.(db := MarkAllStale(s.db, now),
       phase := match s.phase
                case Idle => Idle
                case Heard(list, at, _) => Heard(list, at, Some(0))
                case Storing(list, at, _, prev, i) => Storing(list, at, Some(i), prev, i)
                case Closing(list, at, _, prev, rest) => Closing(list, at, Some(|list|), prev, rest))
  }

  function PutNext(s: State): State
    requires s.phase.Storing? && s.phase.i < |s.phase.list|
  {
    var l := s.phase.list[s.phase.i];
    State(Upsert(s.db, l), s.phase.(i := s.phase.i + 1),
          if Announces(s.phase.prev, l) then s.view[l.key := See(l.pane)] else s.view)
  }

  function CloseOne(s: State, k: string): State
    requires s.phase.Closing?
  {
    State(Stamp(s.db, {k}, s.phase.now), s.phase.(rest := s.phase.rest - {k}), s.view - {k})
  }

  /** A step that does not fit the poll's phase does nothing. */
  function Next(s: State, step: Step): State {
    match step
    case Hear(list, now) => if s.phase.Idle? then s.(phase := Heard(list, now, None)) else s
    case ReadLive =>
      if s.phase.Heard? then s.(phase := Storing(s.phase.list, s.phase.now, s.phase.cut, Live(s.db), 0)) else s
    case Put => if s.phase.Storing? && s.phase.i < |s.phase.list| then PutNext(s) else s
    case EndList =>
      if s.phase.Storing? && s.phase.i == |s.phase.list|
      then s.(phase := Closing(s.phase.list, s.phase.now, s.phase.cut, s.phase.prev, s.phase.prev.Keys - Keys(s.phase.list)))
      else s
    case Close(k) => if s.phase.Closing? && k in s.phase.rest then CloseOne(s, k) else s
    case Finish => if s.phase.Closing? && s.phase.rest == {} then s.(phase := Idle) else s
    case Abort => s.(phase := Idle)
    case FailedPoll(now) => if s.phase.Idle? then Outage(s, now) else s
    case ServerDown(now) => Outage(s, now)
  }

  const START := State(map[], Idle, map[])

  function RunFrom(s: State, steps: seq<Step>): State {
    if steps == [] then s else Next(RunFrom(s, steps[..|steps| - 1]), steps[|steps| - 1])
  }

  function Run(steps: seq<Step>): State { RunFrom(START, steps) }

  // ---------------------------------------------------------------- listings

  lemma ListingMore(list: seq<Listed>, j: nat, i: nat)
    requires j <= i < |list|
    ensures Listing(list[j..i + 1]) == Listing(list[j..i])[list[i].key := list[i].pane]
  {
    assert list[j..i + 1][..i - j] == list[j..i] && list[j..i + 1][i - j] == list[i];
  }

  function Only(m: map<string, Pane>, keys: set<string>): map<string, Pane> { map k | k in m && k in keys :: m[k] }

  /** The panes a poll has made or left live so far. */
  function PollLive(p: Phase): map<string, Pane>
    requires p.Storing? || p.Closing?
    requires p.Storing? ==> p.i <= |p.list| && (p.cut.Some? ==> p.cut.value <= p.i)
    requires p.Closing? ==> p.cut.Some? ==> p.cut.value <= |p.list|
  {
    match p
    case Storing(list, _, None, prev, i) => prev + Listing(list[..i])
    case Storing(list, _, Some(j), _, i) => Listing(list[j..i])
    case Closing(list, _, None, prev, rest) => Only(prev, rest) + Listing(list)
    case Closing(list, _, Some(j), _, _) => Listing(list[j..])
  }

  predicate PhaseOk(db: Panes, p: Phase) {
    match p
    case Idle => true
    case Heard(_, _, cut) => cut.Some? ==> cut == Some(0) && Live(db) == map[]
    case Storing(list, _, cut, _, i) => i <= |list| && (cut.Some? ==> cut.value <= i) && Live(db) == PollLive(p)
    case Closing(list, _, cut, prev, rest) =>
      (cut.Some? ==> cut.value <= |list|) && rest <= prev.Keys - Keys(list) && Live(db) == PollLive(p)
  }

  // ---------------------------------------------------------------- every step keeps it

  lemma LiveUpsert(db: Panes, l: Listed)
    ensures Live(Upsert(db, l)) == Live(db)[l.key := l.pane]
  {}

  lemma LiveClose(db: Panes, k: string, now: int)
    ensures Live(Stamp(db, {k}, now)) == Live(db) - {k}
  {}

  lemma PutKeeps(s: State)
    requires PhaseOk(s.db, s.phase) && s.phase.Storing? && s.phase.i < |s.phase.list|
    ensures PhaseOk(PutNext(s).db, PutNext(s).phase)
  {
    var Storing(list, _, cut, prev, i) := s.phase;
    LiveUpsert(s.db, list[i]);
    if cut.Some? {
      ListingMore(list, cut.value, i);
    } else {
      ListingMore(list, 0, i);
      assert list[0..i] == list[..i] && list[0..i + 1] == list[..i + 1];
      PutOver(prev, Listing(list[..i]), list[i].key, list[i].pane);
    }
  }

  lemma PutOver(a: map<string, Pane>, b: map<string, Pane>, k: string, p: Pane)
    ensures (a + b)[k := p] == a + b[k := p]
  {}

  lemma ListedKeeps(s: State)
    requires PhaseOk(s.db, s.phase) && s.phase.Storing? && s.phase.i == |s.phase.list|
    ensures PhaseOk(Next(s, EndList).db, Next(s, EndList).phase)
  {
    var Storing(list, _, cut, prev, i) := s.phase;
    assert list[..i] == list && (cut.Some? ==> list[cut.value..i] == list[cut.value..]);
    ListingKeys(list);
    assert prev + Listing(list) == Only(prev, prev.Keys - Keys(list)) + Listing(list);
  }

  lemma CloseKeeps(s: State, k: string)
    requires PhaseOk(s.db, s.phase) && s.phase.Closing? && k in s.phase.rest
    ensures PhaseOk(CloseOne(s, k).db, CloseOne(s, k).phase)
  {
    var Closing(list, now, cut, prev, rest) := s.phase;
    LiveClose(s.db, k, now);
    ListingKeys(list);
    if cut.Some? {
      SuffixKeys(list, cut.value);
      assert k !in Listing(list[cut.value..]);
      assert Listing(list[cut.value..]) - {k} == Listing(list[cut.value..]);
    } else {
      assert (Only(prev, rest) + Listing(list)) - {k} == Only(prev, rest - {k}) + Listing(list);
    }
  }

  lemma SuffixKeys(list: seq<Listed>, j: nat)
    requires j <= |list|
    ensures Listing(list[j..]).Keys <= Keys(list)
  {
    ListingKeys(list[j..]);
  }

  lemma OutageKeeps(s: State, now: int)
    requires PhaseOk(s.db, s.phase)
    ensures PhaseOk(Outage(s, now).db, Outage(s, now).phase)
    ensures Live(Outage(s, now).db) == map[]
  {
    NothingLive(s.db, now);
    if s.phase.Storing? {
      assert s.phase.list[s.phase.i..s.phase.i] == [];
    } else if s.phase.Closing? {
      assert s.phase.list[|s.phase.list|..] == [];
    }
  }

  lemma ReadKeeps(s: State)
    requires PhaseOk(s.db, s.phase) && s.phase.Heard?
    ensures PhaseOk(Next(s, ReadLive).db, Next(s, ReadLive).phase)
  {
    assert s.phase.list[..0] == [] && s.phase.list[0..0] == [];
    assert Live(s.db) + map[] == Live(s.db);
  }

  lemma StepKeeps(s: State, step: Step)
    requires PhaseOk(s.db, s.phase)
    ensures PhaseOk(Next(s, step).db, Next(s, step).phase)
  {
    match step
    case ReadLive => if s.phase.Heard? { ReadKeeps(s); }
    case Put => if s.phase.Storing? && s.phase.i < |s.phase.list| { PutKeeps(s); }
    case EndList => if s.phase.Storing? && s.phase.i == |s.phase.list| { ListedKeeps(s); }
    case Close(k) => if s.phase.Closing? && k in s.phase.rest { CloseKeeps(s, k); }
    case FailedPoll(now) => if s.phase.Idle? { OutageKeeps(s, now); }
    case ServerDown(now) => OutageKeeps(s, now);
    case _ =>
  }

  /** In every run, part way through any poll, the live panes are those the poll's own progress says. */
  lemma {:induction false} RunOk(steps: seq<Step>)
    ensures PhaseOk(Run(steps).db, Run(steps).phase)
    decreases steps
  {
    if steps != [] {
      RunOk(steps[..|steps| - 1]);
      StepKeeps(Run(steps[..|steps| - 1]), steps[|steps| - 1]);
    }
  }

  // ---------------------------------------------------------------- what a finished poll leaves

  /** The poll has closed everything it had to. */
  predicate Done(p: Phase) { p.Closing? && p.rest == {} }

  /** How much of its listing a poll's outcome rests on: what it stored after the server last went down. */
  function From(p: Phase): nat
    requires p.Closing?
  {
    if p.cut.Some? then p.cut.value else 0
  }

  /**
   * After a poll whose last server-down came when `j` panes were stored, the live panes are exactly what
   * the rest of its listing says; with none after the listing, exactly the listing.
   */
  lemma FinishedPollExact(steps: seq<Step>)
    requires Done(Run(steps).phase)
    ensures var s := Run(steps);
            && From(s.phase) <= |s.phase.list|
            && Live(Next(s, Finish).db) == Listing(s.phase.list[From(s.phase)..])
            && (s.phase.cut.None? ==> Live(Next(s, Finish).db) == Listing(s.phase.list))
  {
    RunOk(steps);
    var p := Run(steps).phase;
    assert Only(p.prev, {}) + Listing(p.list) == Listing(p.list);
    assert p.list[0..] == p.list;
  }

  predicate OncePerPane(list: seq<Listed>) { forall i, j :: 0 <= i < j < |list| ==> list[i].key != list[j].key }

  /**
   * For listings that name each pane once, a finished poll mirrors its listing if and only if no server-down
   * followed its first store.
   */
  lemma MirrorsListingExactly(steps: seq<Step>)
    requires Done(Run(steps).phase) && OncePerPane(Run(steps).phase.list)
    ensures var s := Run(steps); Live(Next(s, Finish).db) == Listing(s.phase.list) <==> From(s.phase) == 0
  {
    FinishedPollExact(steps);
    var p := Run(steps).phase;
    var j := From(p);
    assert p.list[0..] == p.list;
    if j > 0 {
      ListingKeys(p.list);
      ListingKeys(p.list[j..]);
      assert p.list[0].key in Keys(p.list);
      assert p.list[0].key !in Keys(p.list[j..]);
    }
  }

  /** freeSlots: idle and not stale. */
  predicate OfferedFree(db: Panes, k: string) { k in db && db[k].pane.free && db[k].stale.None? }

  lemma FreeIsLiveFree(db: Panes, k: string)
    ensures OfferedFree(db, k) <==> k in Live(db) && Live(db)[k].free
  {}

  /**
   * No phantom free slot, and exactly which remain: after a finished poll a pane is offered as free if and
   * only if what the poll stored after the server last went down shows it with an idle shell.
   */
  lemma NoPhantomSlot(steps: seq<Step>, k: string)
    requires Done(Run(steps).phase)
    ensures var s := Run(steps);
            && From(s.phase) <= |s.phase.list|
            && var l := Listing(s.phase.list[From(s.phase)..]);
            OfferedFree(Next(s, Finish).db, k) <==> k in l && l[k].free
  {
    FinishedPollExact(steps);
    FreeIsLiveFree(Next(Run(steps), Finish).db, k);
  }

  /** Healing: in every run, a failed poll leaves nothing offered, and so does a server-down between polls. */
  lemma OutageHeals(steps: seq<Step>, now: int, k: string)
    ensures Run(steps).phase.Idle? ==> !OfferedFree(Next(Run(steps), FailedPoll(now)).db, k)
    ensures !OfferedFree(Next(Run(steps), ServerDown(now)).db, k)
  {
    RunOk(steps);
    OutageKeeps(Run(steps), now);
    FreeIsLiveFree(Outage(Run(steps), now).db, k);
  }

  /** And nothing is offered again until a poll stores a pane. */
  lemma {:induction false} NothingUntilPut(s: State, steps: seq<Step>, k: string)
    requires PhaseOk(s.db, s.phase) && Live(s.db) == map[] && forall i :: 0 <= i < |steps| ==> !steps[i].Put?
    ensures !OfferedFree(RunFrom(s, steps).db, k) && Live(RunFrom(s, steps).db) == map[]
    ensures PhaseOk(RunFrom(s, steps).db, RunFrom(s, steps).phase)
    decreases steps
  {
    if steps != [] {
      var n := |steps| - 1;
      NothingUntilPut(s, steps[..n], k);
      var t := RunFrom(s, steps[..n]);
      StepKeeps(t, steps[n]);
      match steps[n]
      case Close(q) => if t.phase.Closing? { LiveClose(t.db, q, t.phase.now); }
      case FailedPoll(now) => OutageKeeps(t, now);
      case ServerDown(now) => OutageKeeps(t, now);
      case _ =>
    }
    FreeIsLiveFree(RunFrom(s, steps).db, k);
  }

  lemma RunSplit(s: State, a: seq<Step>, step: Step)
    ensures RunFrom(s, a + [step]) == Next(RunFrom(s, a), step)
  {
    assert (a + [step])[..|a|] == a;
  }

  /** The race the source describes: a poll in flight offers a pane after the server went down. */
  lemma PhantomSlot(l: Listed, a: int, b: int, steps: seq<Step>)
    requires l.pane.free && steps == [Hear([l], a), ReadLive, ServerDown(b), Put, EndList]
    ensures Done(Run(steps).phase) && OfferedFree(Next(Run(steps), Finish).db, l.key)
  {
    FiveSteps(Hear([l], a), ReadLive, ServerDown(b), Put, EndList);
    var s := State(map[], Storing([l], a, Some(0), map[], 0), map[]);
    assert Live(map[]) == map[];
    assert Next(Next(Next(START, Hear([l], a)), ReadLive), ServerDown(b)) == s;
    assert PutNext(s).db == map[l.key := Row(l.pane, None)];
  }

  /** And the other way round: a poll succeeds, and a pane it listed is not offered. */
  lemma LostSlot(x: Listed, a: int, b: int, steps: seq<Step>)
    requires steps == [Hear([x], a), ReadLive, Put, ServerDown(b), EndList]
    ensures var s := Run(steps); Done(s.phase) && x.key in Listing(s.phase.list) && !OfferedFree(Next(s, Finish).db, x.key)
  {
    FiveSteps(Hear([x], a), ReadLive, Put, ServerDown(b), EndList);
    assert Live(map[]) == map[];
    var s := Next(Next(Next(START, Hear([x], a)), ReadLive), Put);
    assert s.phase == Storing([x], a, None, map[], 1);
    NothingLive(s.db, b);
    FreeIsLiveFree(Outage(s, b).db, x.key);
    assert Listing([x])[x.key] == x.pane;
  }

  lemma FiveSteps(a: Step, b: Step, c: Step, d: Step, e: Step)
    ensures Run([a, b, c, d, e]) == Next(Next(Next(Next(Next(START, a), b), c), d), e)
  {
    TwoSteps(START, a, b);
    TwoSteps(Next(Next(START, a), b), c, d);
    RunConcat(START, [a, b], [c, d]);
    assert [a, b] + [c, d] == [a, b, c, d] && [a, b, c, d] + [e] == [a, b, c, d, e];
    RunSplit(START, [a, b, c, d], e);
  }

  lemma TwoSteps(s: State, a: Step, b: Step)
    ensures RunFrom(s, [a, b]) == Next(Next(s, a), b)
  {
    OneStep(s, a);
    RunSplit(s, [a], b);
    assert [a] + [b] == [a, b];
  }

  // ---------------------------------------------------------------- an uninterrupted poll

  function Puts(n: nat): (r: seq<Step>)
    ensures |r| == n
  {
    if n == 0 then [] else Puts(n - 1) + [Put]
  }

  function Closes(order: seq<string>): (r: seq<Step>)
    ensures |r| == |order|
  {
    if order == [] then [] else Closes(order[..|order| - 1]) + [Close(order[|order| - 1])]
  }

  lemma {:induction false} PutsRun(s: State, n: nat)
    requires s.phase.Storing? && s.phase.i == 0 && n <= |s.phase.list|
    ensures var t := RunFrom(s, Puts(n));
            t.phase == s.phase.(i := n) && t.db == UpsertAll(s.db, s.phase.list[..n])
    decreases n
  {
    if n > 0 {
      PutsRun(s, n - 1);
      RunSplit(s, Puts(n - 1), Put);
      assert s.phase.list[..n][..n - 1] == s.phase.list[..n - 1];
    }
  }

  lemma PutsMore(s: State, n: nat)
    requires s.phase.Storing? && s.phase.i == 0 && n < |s.phase.list|
    ensures var t := RunFrom(s, Puts(n)); t.phase == s.phase.(i := n) && RunFrom(s, Puts(n + 1)) == PutNext(t)
  {
    PutsRun(s, n);
    RunSplit(s, Puts(n), Put);
  }

  lemma {:induction false} ClosesRun(s: State, order: seq<string>)
    requires s.phase.Closing? && Lists(order, Elems(order)) && Elems(order) <= s.phase.rest
    ensures var t := RunFrom(s, Closes(order));
            t.phase == s.phase.(rest := s.phase.rest - Elems(order)) && t.db == Stamp(s.db, Elems(order), s.phase.now)
    decreases order
  {
    if order == [] {
      StampNone(s.db, s.phase.now);
      assert Elems(order) == {} && s.phase.rest - {} == s.phase.rest;
    } else {
      var init, k := order[..|order| - 1], order[|order| - 1];
      OrderSplit(order);
      ClosesRun(s, init);
      CloseStep(s, RunFrom(s, Closes(init)), Elems(init), k);
      RunSplit(s, Closes(init), Close(k));
    }
  }

  /** One more closing, after those of `done`. */
  lemma CloseStep(s: State, t: State, done: set<string>, k: string)
    requires s.phase.Closing? && k in s.phase.rest && k !in done
    requires t.phase == s.phase.(rest := s.phase.rest - done) && t.db == Stamp(s.db, done, s.phase.now)
    ensures var u := Next(t, Close(k));
            u.phase == s.phase.(rest := s.phase.rest - (done + {k})) && u.db == Stamp(s.db, done + {k}, s.phase.now)
  {
    StampMore(s.db, done, k, s.phase.now);
    assert s.phase.rest - done - {k} == s.phase.rest - (done + {k});
  }

  lemma OrderSplit(order: seq<string>)
    requires order != [] && Lists(order, Elems(order))
    ensures var init, k := order[..|order| - 1], order[|order| - 1];
            Elems(order) == Elems(init) + {k} && k !in Elems(init) && Lists(init, Elems(init))
  {
    assert order == order[..|order| - 1] + [order[|order| - 1]];
  }

  lemma {:induction false} RunConcat(s: State, a: seq<Step>, b: seq<Step>)
    ensures RunFrom(s, a + b) == RunFrom(RunFrom(s, a), b)
    decreases b
  {
    if b == [] {
      assert a + b == a;
    } else {
      RunConcat(s, a, b[..|b| - 1]);
      assert (a + b)[..|a + b| - 1] == a + b[..|b| - 1];
    }
  }

  /** A poll with nothing between its statements writes what Store.ReconcileNow writes, in whatever order it closes. */
  lemma PollAlone(s: State, list: seq<Listed>, now: int, order: seq<string>)
    requires s.phase.Idle? && Lists(order, Vanished(s.db, list))
    ensures var t := RunFrom(s, [Hear(list, now), ReadLive] + Puts(|list|) + [EndList] + Closes(order) + [Finish]);
            t.db == Reconcile(s.db, list, now) && t.phase == Idle
  {
    var a, d := [Hear(list, now), ReadLive] + Puts(|list|) + [EndList], Closes(order);
    PollListed(s, list, now);
    var t := RunFrom(s, a);
    assert Elems(order) == Vanished(s.db, list);
    ClosesRun(t, order);
    assert t.phase.rest - Elems(order) == {};
    RunConcat(s, a, d);
    RunSplit(s, a + d, Finish);
  }

  /** A poll that dies leaves what it wrote, and the next one starts afresh on it, whatever it died of. */
  lemma PollAfterAbort(s: State, list: seq<Listed>, now: int, order: seq<string>)
    requires Lists(order, Vanished(s.db, list))
    ensures var poll := [Hear(list, now), ReadLive] + Puts(|list|) + [EndList] + Closes(order) + [Finish];
            RunFrom(s, [Abort] + poll).db == Reconcile(s.db, list, now)
  {
    var poll := [Hear(list, now), ReadLive] + Puts(|list|) + [EndList] + Closes(order) + [Finish];
    OneStep(s, Abort);
    RunConcat(s, [Abort], poll);
    PollAlone(s.(phase := Idle), list, now, order);
  }

  /** The poll up to its closings. */
  lemma PollListed(s: State, list: seq<Listed>, now: int)
    requires s.phase.Idle?
    ensures var t := RunFrom(s, [Hear(list, now), ReadLive] + Puts(|list|) + [EndList]);
            t.db == UpsertAll(s.db, list) && t.phase == Closing(list, now, None, Live(s.db), Vanished(s.db, list))
  {
    var s1 := s.(phase := Storing(list, now, None, Live(s.db), 0));
    StartRun(s, list, now);
    PutsRun(s1, |list|);
    assert list[..|list|] == list;
    RunChain(s, [Hear(list, now), ReadLive], Puts(|list|), EndList);
  }

  lemma StartRun(s: State, list: seq<Listed>, now: int)
    requires s.phase.Idle?
    ensures RunFrom(s, [Hear(list, now), ReadLive]) == s.(phase := Storing(list, now, None, Live(s.db), 0))
  {
    TwoSteps(s, Hear(list, now), ReadLive);
  }

  lemma RunChain(s: State, a: seq<Step>, b: seq<Step>, step: Step)
    ensures RunFrom(s, a + b + [step]) == Next(RunFrom(RunFrom(s, a), b), step)
  {
    RunConcat(s, a, b);
    RunSplit(s, a + b, step);
  }

  lemma OneStep(s: State, step: Step)
    ensures RunFrom(s, [step]) == Next(s, step)
  {
    assert [step][..0] == [];
  }
}
