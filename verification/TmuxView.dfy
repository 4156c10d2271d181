/**
 * What the pane events of plugins/tmux/snapshot.go:53-79 announce, under every interleaving of polls with
 * server-downs: for every run, at every moment, pane by pane. `TmuxDelivery` says what a consumer holds of it.
 */
module TmuxView {
  import opened Options
  import opened Delivery
  import opened Tmux
  import opened TmuxRun

  /** The last thing that reached a pane's row: a store, a closing, or an outage after a store. */
  datatype Touch = Stored(pane: Pane) | Closed | Lost

  predicate IsOutage(s: State, step: Step) { step.ServerDown? || (step.FailedPoll? && s.phase.Idle?) }

  predicate Stores(s: State, step: Step, k: string) {
    step.Put? && s.phase.Storing? && s.phase.i < |s.phase.list| && s.phase.list[s.phase.i].key == k
  }

  predicate Shuts(s: State, step: Step, k: string) { step == Close(k) && s.phase.Closing? && k in s.phase.rest }

  function StepTouch(s: State, step: Step, t: Option<Touch>, k: string): Option<Touch> {
    if Stores(s, step, k) then Some(Stored(s.phase.list[s.phase.i].pane))
    else if Shuts(s, step, k) then Some(Closed)
    else if IsOutage(s, step) && t.Some? && t.value.Stored? then Some(Lost)
    else t
  }

  function LastTouch(steps: seq<Step>, k: string): Option<Touch> {
    if steps == [] then None
    else
      var init := steps[..|steps| - 1];
      StepTouch(Run(init), steps[|steps| - 1], LastTouch(init, k), k)
  }

  predicate StoredNow(t: Option<Touch>) { t.Some? && t.value.Stored? }

  /** What a touch leaves in the store and announced. */
  predicate Fate(s: State, t: Option<Touch>, k: string) {
    && (k in Live(s.db) <==> StoredNow(t))
    && (k in Live(s.db) ==> Live(s.db)[k] == t.value.pane)
    && (k in s.view <==> t.Some? && !t.value.Closed?)
  }

  /** Every live pane stands announced, and every pane the poll in flight read as live. */
  predicate Known(s: State) {
    && Live(s.db).Keys <= s.view.Keys
    && (s.phase.Storing? ==> s.phase.prev.Keys <= s.view.Keys)
  }

  lemma KnownPut(s: State)
    requires Known(s) && s.phase.Storing? && s.phase.i < |s.phase.list|
    ensures Known(PutNext(s))
  {
    var l := s.phase.list[s.phase.i];
    LiveUpsert(s.db, l);
    assert l.key in PutNext(s).view;
  }

  lemma KnownStep(s: State, step: Step)
    requires Known(s)
    ensures Known(Next(s, step))
  {
    match step
    case Put => if s.phase.Storing? && s.phase.i < |s.phase.list| { KnownPut(s); }
    case Close(k) => if s.phase.Closing? { LiveClose(s.db, k, s.phase.now); }
    case FailedPoll(now) => NothingLive(s.db, now);
    case ServerDown(now) => NothingLive(s.db, now);
    case _ =>
  }

  lemma FatePut(s: State, t: Option<Touch>, k: string)
    requires Known(s) && s.phase.Storing? && s.phase.i < |s.phase.list| && Fate(s, t, k)
    ensures Fate(PutNext(s), StepTouch(s, Put, t, k), k)
  {
    var l := s.phase.list[s.phase.i];
    LiveUpsert(s.db, l);
  }

  lemma FateClose(s: State, q: string, t: Option<Touch>, k: string)
    requires s.phase.Closing? && q in s.phase.rest && Fate(s, t, k)
    ensures Fate(CloseOne(s, q), StepTouch(s, Close(q), t, k), k)
  {
    LiveClose(s.db, q, s.phase.now);
  }

  lemma FateStep(s: State, step: Step, t: Option<Touch>, k: string)
    requires Known(s) && Fate(s, t, k)
    ensures Fate(Next(s, step), StepTouch(s, step, t, k), k)
  {
    match step
    case Put => if s.phase.Storing? && s.phase.i < |s.phase.list| { FatePut(s, t, k); }
    case Close(q) => if s.phase.Closing? && q in s.phase.rest { FateClose(s, q, t, k); }
    case FailedPoll(now) => NothingLive(s.db, now);
    case ServerDown(now) => NothingLive(s.db, now);
    case _ =>
  }

  lemma {:induction false} RunFate(steps: seq<Step>, k: string)
    ensures Known(Run(steps)) && Fate(Run(steps), LastTouch(steps, k), k)
    decreases steps
  {
    if steps != [] {
      var init := steps[..|steps| - 1];
      RunFate(init, k);
      KnownStep(Run(init), steps[|steps| - 1]);
      FateStep(Run(init), steps[|steps| - 1], LastTouch(init, k), k);
    } else {
      assert Live(map[]) == map[];
    }
  }

  /** An outage came after the pane's last store, and nothing has stored or closed it since. */
  predicate Orphaned(steps: seq<Step>, k: string) { LastTouch(steps, k) == Some(Lost) }

  /**
   * Exactly which panes stand announced, in every run and at every moment: the live ones and the
   * orphaned ones, whatever races, aborts and repeated lines there were.
   */
  lemma ViewExactly(steps: seq<Step>, k: string)
    ensures k in Run(steps).view <==> k in Live(Run(steps).db) || Orphaned(steps, k)
    ensures Orphaned(steps, k) ==> k !in Live(Run(steps).db)
  {
    RunFate(steps, k);
  }

  /** The poll in flight, if any, neither names the pane nor means to close it. */
  predicate Away(p: Phase, k: string) {
    && (!p.Idle? ==> k !in Keys(p.list))
    && (p.Storing? ==> k !in p.prev)
    && (p.Closing? ==> k !in p.rest)
  }

  lemma TouchMore(steps: seq<Step>, step: Step, k: string)
    ensures LastTouch(steps + [step], k) == StepTouch(Run(steps), step, LastTouch(steps, k), k)
    ensures Run(steps + [step]) == Next(Run(steps), step)
  {
    assert (steps + [step])[..|steps|] == steps;
  }

  lemma OrphanStep(s: State, step: Step, k: string)
    requires Away(s.phase, k) && Fate(s, Some(Lost), k) && (step.Hear? ==> k !in Keys(step.list))
    ensures Away(Next(s, step).phase, k) && StepTouch(s, step, Some(Lost), k) == Some(Lost)
  {}

  /** An orphan is for good: until a poll lists the pane again, no event about it is ever announced. */
  lemma {:induction false} OrphanStays(steps: seq<Step>, later: seq<Step>, k: string)
    requires Orphaned(steps, k) && Run(steps).phase.Idle?
    requires forall i :: 0 <= i < |later| && later[i].Hear? ==> k !in Keys(later[i].list)
    ensures Orphaned(steps + later, k) && Away(Run(steps + later).phase, k)
    decreases later
  {
    if later == [] {
      assert steps + later == steps;
    } else {
      var n := |later| - 1;
      OrphanStays(steps, later[..n], k);
      OrphanMore(steps + later[..n], later[n], k);
      assert steps + later == (steps + later[..n]) + [later[n]];
    }
  }

  lemma OrphanMore(steps: seq<Step>, step: Step, k: string)
    requires Orphaned(steps, k) && Away(Run(steps).phase, k) && (step.Hear? ==> k !in Keys(step.list))
    ensures Orphaned(steps + [step], k) && Away(Run(steps + [step]).phase, k)
  {
    RunFate(steps, k);
    OrphanStep(Run(steps), step, k);
    TouchMore(steps, step, k);
  }

  /** Orphans are real: a pane stored, and the server gone before the poll is over. */
  lemma OutageLeavesOrphan(l: Listed, a: int, b: int, steps: seq<Step>)
    requires steps == [Hear([l], a), ReadLive, Put, ServerDown(b), EndList]
    ensures Orphaned(steps, l.key)
  {
    FiveSteps(steps[0], steps[1], steps[2], steps[3], steps[4]);
    assert Live(map[]) == map[];
    var s := Next(Next(Next(START, Hear([l], a)), ReadLive), Put);
    assert l.key in s.view;
    NothingLive(s.db, b);
    ViewExactly(steps, l.key);
  }

  /** Exactly which panes are offered as free, at every moment, polls in flight and aborted ones included. */
  lemma SlotExactly(steps: seq<Step>, k: string)
    ensures OfferedFree(Run(steps).db, k) <==> StoredNow(LastTouch(steps, k)) && LastTouch(steps, k).value.pane.free
  {
    RunFate(steps, k);
    FreeIsLiveFree(Run(steps).db, k);
  }

  // ---------------------------------------------------------------- the fields

  /** Every listing so far, and the one in hand, names each pane once. */
  predicate ProperStep(step: Step) { step.Hear? ==> OncePerPane(step.list) }

  predicate Proper(steps: seq<Step>) { forall i :: 0 <= i < |steps| ==> ProperStep(steps[i]) }

  predicate ListOf(p: Phase) { !p.Idle? ==> OncePerPane(p.list) }

  /** The announced fields of a live pane are the store's, and of a pane not yet reached by a poll those the poll read. */
  predicate FieldsOk(s: State) {
    && ListOf(s.phase)
    && (forall k :: k in Live(s.db) ==> k in s.view && s.view[k] == See(Live(s.db)[k]))
    && (s.phase.Storing? ==> s.phase.i <= |s.phase.list|)
    && (s.phase.Storing? ==> forall k :: k in s.phase.prev && k !in Keys(s.phase.list[..s.phase.i]) ==>
                                       k in s.view && s.view[k] == See(s.phase.prev[k]))
  }

  lemma FieldsPut(s: State)
    requires FieldsOk(s) && s.phase.Storing? && s.phase.i < |s.phase.list|
    ensures FieldsOk(PutNext(s))
  {
    var list, i := s.phase.list, s.phase.i;
    var l := list[i];
    LiveUpsert(s.db, l);
    assert list[..i + 1][..i] == list[..i];
    KeysStep(list[..i + 1]);
    assert l.key !in Keys(list[..i]);
  }

  lemma FieldsRead(s: State)
    requires FieldsOk(s) && s.phase.Heard?
    ensures FieldsOk(Next(s, ReadLive))
  {
    assert s.phase.list[..0] == [];
  }

  lemma FieldsStep(s: State, step: Step)
    requires FieldsOk(s) && ProperStep(step)
    ensures FieldsOk(Next(s, step))
  {
    match step
    case ReadLive => if s.phase.Heard? { FieldsRead(s); }
    case Put => if s.phase.Storing? && s.phase.i < |s.phase.list| { FieldsPut(s); }
    case Close(k) => if s.phase.Closing? { LiveClose(s.db, k, s.phase.now); }
    case FailedPoll(now) => NothingLive(s.db, now);
    case ServerDown(now) => NothingLive(s.db, now);
    case _ =>
  }

  /** With listings that name each pane once, the free, command and path last announced of every live pane are the store's. */
  lemma {:induction false} ViewShowsLive(steps: seq<Step>)
    requires Proper(steps)
    ensures FieldsOk(Run(steps))
    decreases steps
  {
    if steps != [] {
      ViewShowsLive(steps[..|steps| - 1]);
      FieldsStep(Run(steps[..|steps| - 1]), steps[|steps| - 1]);
    } else {
      assert Live(map[]) == map[];
    }
  }

  // ---------------------------------------------------------------- a listing that repeats a pane

  /** The line of a listing that is last announced. */
  function Shown(prev: map<string, Pane>, list: seq<Listed>, k: string): Option<Visible> {
    if list == [] then None
    else
      var l := list[|list| - 1];
      if l.key == k && Announces(prev, l) then Some(See(l.pane)) else Shown(prev, list[..|list| - 1], k)
  }

  /** What stands announced of a pane after a poll that read `prev` and listed `list`, from what stood before. */
  function After(v: Option<Visible>, prev: map<string, Pane>, list: seq<Listed>, k: string): Option<Visible> {
    match Shown(prev, list, k) case Some(x) => Some(x) case None => v
  }

  lemma {:induction false} PutsTell(s: State, n: nat, k: string)
    requires s.phase.Storing? && s.phase.i == 0 && n <= |s.phase.list|
    ensures Entry(RunFrom(s, Puts(n)).view, k) == After(Entry(s.view, k), s.phase.prev, s.phase.list[..n], k)
    decreases n
  {
    if n == 0 {
      assert s.phase.list[..0] == [];
    } else {
      PutsTell(s, n - 1, k);
      PutsMore(s, n - 1);
      TellStep(RunFrom(s, Puts(n - 1)), Entry(s.view, k), k);
    }
  }

  lemma TellStep(t: State, first: Option<Visible>, k: string)
    requires t.phase.Storing? && t.phase.i < |t.phase.list|
    requires Entry(t.view, k) == After(first, t.phase.prev, t.phase.list[..t.phase.i], k)
    ensures Entry(PutNext(t).view, k) == After(first, t.phase.prev, t.phase.list[..t.phase.i + 1], k)
  {
    assert t.phase.list[..t.phase.i + 1][..t.phase.i] == t.phase.list[..t.phase.i];
  }

  lemma {:induction false} ShownDiffers(prev: map<string, Pane>, list: seq<Listed>, k: string)
    ensures Shown(prev, list, k).Some? && k in prev ==> Shown(prev, list, k).value != See(prev[k])
    ensures Shown(prev, list, k).None? && k in Listing(list) ==> k in prev && See(Listing(list)[k]) == See(prev[k])
  {
    if list != [] {
      ShownDiffers(prev, list[..|list| - 1], k);
    }
  }

  /**
   * For any listing: what stands announced of a pane that was live is the store's fields if and only if it is
   * not the case that an earlier line changed the pane and its last line changed it back.
   */
  lemma RepeatedLinesExactly(prev: map<string, Pane>, list: seq<Listed>, k: string)
    requires k in prev && k in Listing(list)
    ensures var told := After(Some(See(prev[k])), prev, list, k);
            told == Some(See(Listing(list)[k])) <==> !(See(Listing(list)[k]) == See(prev[k]) && Shown(prev, list, k).Some?)
  {
    ShownDiffers(prev, list, k);
    if See(Listing(list)[k]) != See(prev[k]) {
      LastLineShown(prev, list, k);
    }
  }

  lemma {:induction false} LastLineShown(prev: map<string, Pane>, list: seq<Listed>, k: string)
    requires k in prev && k in Listing(list) && See(Listing(list)[k]) != See(prev[k])
    ensures Shown(prev, list, k) == Some(See(Listing(list)[k]))
    decreases list
  {
    if list != [] && list[|list| - 1].key != k {
      LastLineShown(prev, list[..|list| - 1], k);
    }
  }
}
