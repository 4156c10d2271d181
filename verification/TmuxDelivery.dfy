/**
 * What a consumer of the pane events holds when emits can be lost: plugins/tmux/snapshot.go:53-79 compares
 * a pane with the stored row and not with what was delivered, and :176-189 drops the emit's error.
 */
module TmuxDelivery {
  import opened Options
  import opened Delivery
  import opened Tmux
  import opened TmuxRun
  import opened TmuxView

  /** What a step emits about a pane: at most one event. */
  function Emits(s: State, step: Step): (r: seq<Msg<Visible>>)
    ensures |r| <= 1
  {
    match step
    case Put =>
      if s.phase.Storing? && s.phase.i < |s.phase.list| && Announces(s.phase.prev, s.phase.list[s.phase.i])
      then [Msg(s.phase.list[s.phase.i].key, Some(See(s.phase.list[s.phase.i].pane)))] else []
    case Close(k) => if s.phase.Closing? && k in s.phase.rest then [Msg(k, None)] else []
    case _ => []
  }

  /** Every pane event of a run, in order. */
  function Log(steps: seq<Step>): seq<Msg<Visible>> {
    if steps == [] then [] else Log(steps[..|steps| - 1]) + Emits(Run(steps[..|steps| - 1]), steps[|steps| - 1])
  }

  /** What the consumer holds of a pane, given which emits of the run got through. */
  function Told(steps: seq<Step>, sent: nat -> bool, k: string): Option<Visible> { Held(Log(steps), sent, k) }

  function LiveEntry(s: State, k: string): Option<Visible> { if k in Live(s.db) then Some(See(Live(s.db)[k])) else None }

  lemma LogMore(steps: seq<Step>, step: Step)
    ensures Log(steps + [step]) == Log(steps) + Emits(Run(steps), step)
    ensures Run(steps + [step]) == Next(Run(steps), step)
  {
    assert (steps + [step])[..|steps|] == steps;
  }

  /** A moment of a run: the state, and the pane events so far. */
  datatype Moment = Moment(s: State, log: seq<Msg<Visible>>)

  function At(steps: seq<Step>): Moment { Moment(Run(steps), Log(steps)) }

  function Advance(m: Moment, later: seq<Step>): Moment
    decreases later
  {
    if later == [] then m else Advance(Moment(Next(m.s, later[0]), m.log + Emits(m.s, later[0])), later[1..])
  }

  lemma AtMore(steps: seq<Step>, step: Step, next: seq<Step>)
    requires next == steps + [step]
    ensures At(next) == Moment(Next(Run(steps), step), Log(steps) + Emits(Run(steps), step))
  {
    LogMore(steps, step);
  }

  lemma {:induction false} AdvanceRun(steps: seq<Step>, later: seq<Step>, all: seq<Step>)
    requires all == steps + later
    ensures Advance(At(steps), later) == At(all)
    decreases later
  {
    if later == [] {
      assert all == steps;
    } else {
      var next := steps + [later[0]];
      assert all == next + later[1..];
      AdvanceRun(next, later[1..], all);
      AtMore(steps, later[0], next);
    }
  }

  predicate Mentions(add: seq<Msg<Visible>>, k: string) { add != [] && add[0].key == k }

  lemma EmitsMore(log: seq<Msg<Visible>>, add: seq<Msg<Visible>>, sent: nat -> bool, k: string)
    requires |add| <= 1
    ensures !Mentions(add, k) ==> Held(log + add, sent, k) == Held(log, sent, k)
    ensures LastAbout(log + add, k) == if Mentions(add, k) then |log| else LastAbout(log, k)
    ensures Announced(log + add, k) == if Mentions(add, k) then add[0].says else Announced(log, k)
  {
    if add == [] {
      assert log + add == log;
    } else {
      assert add == [add[0]];
      OneMore(log, add[0], sent, k);
    }
  }

  lemma ViewStep(s: State, step: Step, k: string)
    ensures Entry(Next(s, step).view, k) == if Mentions(Emits(s, step), k) then Emits(s, step)[0].says else Entry(s.view, k)
  {}

  /** The view of `TmuxRun` is what the events of the run announce. */
  lemma {:induction false} AnnouncedIsView(steps: seq<Step>, k: string)
    ensures Announced(Log(steps), k) == Entry(Run(steps).view, k)
  {
    if steps != [] {
      var init := steps[..|steps| - 1];
      AnnouncedIsView(init, k);
      EmitsMore(Log(init), Emits(Run(init), steps[|steps| - 1]), _ => true, k);
      ViewStep(Run(init), steps[|steps| - 1], k);
    }
  }

  // ---------------------------------------------------------------- exactly what is held

  /**
   * In every run, the consumer holds what was announced of a pane if and only if the last emit about it got
   * through or said nothing new.
   */
  lemma ToldIsAnnouncedExactly(steps: seq<Step>, sent: nat -> bool, k: string)
    ensures Told(steps, sent, k) == Entry(Run(steps).view, k) <==> !Missed(Log(steps), sent, k)
  {
    AnnouncedIsView(steps, k);
    HeldIsAnnouncedExactly(Log(steps), sent, k);
  }

  /** The last emit about a pane was lost, and said it open while the consumer held nothing, or closed while it held it. */
  predicate PresenceMissed(log: seq<Msg<Visible>>, sent: nat -> bool, k: string) {
    var i := LastAbout(log, k);
    i >= 0 && !sent(i) && Held(log[..i], sent, k).Some? != log[i].says.Some?
  }

  /**
   * Every run, at every moment: the consumer knows of a pane if and only if it is live, exactly under one
   * condition on the emits about it.
   */
  lemma PresentExactly(steps: seq<Step>, sent: nat -> bool, k: string)
    ensures (Told(steps, sent, k).Some? <==> k in Live(Run(steps).db))
            <==> if Orphaned(steps, k) then NeverHeard(Log(steps), sent, k) else !PresenceMissed(Log(steps), sent, k)
  {
    TmuxView.ViewExactly(steps, k);
    AnnouncedIsView(steps, k);
    AtLast(Log(steps), sent, k);
  }

  predicate HoldsLive(steps: seq<Step>, sent: nat -> bool, k: string) { Told(steps, sent, k) == LiveEntry(Run(steps), k) }

  /**
   * Every run over listings that name each pane once, at every moment, any emits lost: the consumer holds
   * exactly a live pane's fields, and nothing of any other, if and only if the last emit about the pane got
   * through or said nothing new; or, where an outage orphaned the pane, the consumer never heard of it.
   */
  lemma ConsumerExactly(steps: seq<Step>, sent: nat -> bool, k: string)
    requires Proper(steps)
    ensures HoldsLive(steps, sent, k)
            <==> if Orphaned(steps, k) then NeverHeard(Log(steps), sent, k) else !Missed(Log(steps), sent, k)
  {
    TmuxView.ViewExactly(steps, k);
    ViewShowsLive(steps);
    AnnouncedIsView(steps, k);
    HeldIsExactly(Log(steps), sent, k, LiveEntry(Run(steps), k));
  }

  // ---------------------------------------------------------------- what is never sent again

  /** The pane is not live, and the poll in flight, if any, neither names it nor means to close it. */
  predicate Gone(s: State, k: string) { k !in Live(s.db) && Away(s.phase, k) }

  lemma GoneStep(s: State, step: Step, k: string)
    requires Gone(s, k) && (step.Hear? ==> k !in Keys(step.list))
    ensures Gone(Next(s, step), k) && !Mentions(Emits(s, step), k)
  {
    match step
    case Put => if s.phase.Storing? && s.phase.i < |s.phase.list| { LiveUpsert(s.db, s.phase.list[s.phase.i]); }
    case Close(q) => if s.phase.Closing? { LiveClose(s.db, q, s.phase.now); }
    case FailedPoll(now) => NothingLive(s.db, now);
    case ServerDown(now) => NothingLive(s.db, now);
    case _ =>
  }

  lemma {:induction false} GoneStays(m: Moment, later: seq<Step>, sent: nat -> bool, k: string)
    requires Gone(m.s, k) && forall i :: 0 <= i < |later| && later[i].Hear? ==> k !in Keys(later[i].list)
    ensures Gone(Advance(m, later).s, k) && Held(Advance(m, later).log, sent, k) == Held(m.log, sent, k)
    decreases later
  {
    if later != [] {
      GoneStep(m.s, later[0], k);
      EmitsMore(m.log, Emits(m.s, later[0]), sent, k);
      GoneStays(Moment(Next(m.s, later[0]), m.log + Emits(m.s, later[0])), later[1..], sent, k);
    }
  }

  /**
   * A lost closing is for good: of a pane that is gone, nothing is sent until a poll lists it again,
   * through any polls, aborts, outages and restarts.
   */
  lemma LostClosedStays(steps: seq<Step>, later: seq<Step>, sent: nat -> bool, k: string)
    requires Gone(Run(steps), k) && forall i :: 0 <= i < |later| && later[i].Hear? ==> k !in Keys(later[i].list)
    ensures Gone(Run(steps + later), k) && Told(steps + later, sent, k) == Told(steps, sent, k)
  {
    AdvanceRun(steps, later, steps + later);
    GoneStays(At(steps), later, sent, k);
  }

  /** Every line of the listing about the pane shows these fields, and there is one. */
  predicate Names(list: seq<Listed>, k: string, v: Visible) {
    k in Keys(list) && forall j :: 0 <= j < |list| && list[j].key == k ==> See(list[j].pane) == v
  }

  /** The pane is live with these fields, and so the poll in flight, if any, read and lists it. */
  predicate Steady(s: State, k: string, v: Visible) {
    && LiveEntry(s, k) == Some(v)
    && (!s.phase.Idle? ==> Names(s.phase.list, k, v))
    && (s.phase.Storing? ==> k in s.phase.prev && See(s.phase.prev[k]) == v)
    && (s.phase.Closing? ==> k !in s.phase.rest)
  }

  /** No outage, and every listing shows the pane as it is. */
  predicate SteadyStep(step: Step, k: string, v: Visible) {
    !step.FailedPoll? && !step.ServerDown? && (step.Hear? ==> Names(step.list, k, v))
  }

  lemma SteadyNext(s: State, step: Step, k: string, v: Visible)
    requires Steady(s, k, v) && SteadyStep(step, k, v)
    ensures Steady(Next(s, step), k, v) && !Mentions(Emits(s, step), k)
  {
    match step
    case Put => if s.phase.Storing? && s.phase.i < |s.phase.list| { LiveUpsert(s.db, s.phase.list[s.phase.i]); }
    case Close(q) => if s.phase.Closing? { LiveClose(s.db, q, s.phase.now); }
    case _ =>
  }

  lemma {:induction false} SteadyStays(m: Moment, later: seq<Step>, sent: nat -> bool, k: string, v: Visible)
    requires Steady(m.s, k, v) && forall i :: 0 <= i < |later| ==> SteadyStep(later[i], k, v)
    ensures Steady(Advance(m, later).s, k, v) && Held(Advance(m, later).log, sent, k) == Held(m.log, sent, k)
    decreases later
  {
    if later != [] {
      SteadyNext(m.s, later[0], k, v);
      EmitsMore(m.log, Emits(m.s, later[0]), sent, k);
      SteadyStays(Moment(Next(m.s, later[0]), m.log + Emits(m.s, later[0])), later[1..], sent, k, v);
    }
  }

  /** A lost update is not sent again while the pane stays as it is and no outage comes, aborted polls and restarts included. */
  lemma LostUpdateStays(steps: seq<Step>, later: seq<Step>, sent: nat -> bool, k: string, v: Visible)
    requires Steady(Run(steps), k, v) && forall i :: 0 <= i < |later| ==> SteadyStep(later[i], k, v)
    ensures Steady(Run(steps + later), k, v) && Told(steps + later, sent, k) == Told(steps, sent, k)
  {
    AdvanceRun(steps, later, steps + later);
    SteadyStays(At(steps), later, sent, k, v);
  }

  /** One lost emit, and through any number of polls that succeed a live pane the consumer never hears of. */
  lemma LostUpdateHidesPane(l: Listed, a: int, steps: seq<Step>, later: seq<Step>, sent: nat -> bool)
    requires steps == [Hear([l], a), ReadLive, Put, EndList, Finish] && !sent(0)
    requires forall i :: 0 <= i < |later| ==> SteadyStep(later[i], l.key, See(l.pane))
    ensures l.key in Live(Run(steps + later).db) && Told(steps + later, sent, l.key).None?
  {
    FirstPoll(l, a, steps);
    OneMore([], Msg(l.key, Some(See(l.pane))), sent, l.key);
    assert [] + [Msg(l.key, Some(See(l.pane)))] == Log(steps);
    LostUpdateStays(steps, later, sent, l.key, See(l.pane));
  }

  lemma FirstPoll(l: Listed, a: int, steps: seq<Step>)
    requires steps == [Hear([l], a), ReadLive, Put, EndList, Finish]
    ensures Steady(Run(steps), l.key, See(l.pane)) && Log(steps) == [Msg(l.key, Some(See(l.pane)))]
  {
    var two, four := steps[..2], steps[..4];
    FirstRead(l, a, two);
    var three := two + [Put];
    LogMore(two, Put);
    LiveUpsert(map[], l);
    assert four == three + [EndList] && steps == four + [Finish];
    LogMore(three, EndList);
    LogMore(four, Finish);
  }

  lemma FirstRead(l: Listed, a: int, two: seq<Step>)
    requires two == [Hear([l], a), ReadLive]
    ensures Run(two) == State(map[], Storing([l], a, None, map[], 0), map[]) && Log(two) == []
  {
    assert two == two[..1] + [ReadLive] && two[..1] == [] + [Hear([l], a)];
    LogMore([], Hear([l], a));
    LogMore(two[..1], ReadLive);
    assert Live(map[]) == map[];
  }

  // ---------------------------------------------------------------- an outage sends again

  /** A pane that is live, or was when the poll in flight read the store, was last emitted, at `at`, not before `base`. */
  predicate Since(s: State, at: int, base: nat, k: string) {
    k in Live(s.db) || (s.phase.Storing? && k in s.phase.prev) ==> at >= base
  }

  lemma SinceNext(s: State, step: Step, at: int, more: int, base: nat, k: string)
    requires Since(s, at, base, k) && more >= base
    ensures Since(Next(s, step), if Mentions(Emits(s, step), k) then more else at, base, k)
  {
    match step
    case Put => if s.phase.Storing? && s.phase.i < |s.phase.list| { LiveUpsert(s.db, s.phase.list[s.phase.i]); }
    case Close(q) => if s.phase.Closing? { LiveClose(s.db, q, s.phase.now); }
    case FailedPoll(now) => NothingLive(s.db, now);
    case ServerDown(now) => NothingLive(s.db, now);
    case _ =>
  }

  predicate SentSince(m: Moment, base: nat, k: string) {
    |m.log| >= base && Since(m.s, LastAbout(m.log, k), base, k)
  }

  lemma {:induction false} SinceSteps(m: Moment, later: seq<Step>, base: nat, k: string)
    requires SentSince(m, base, k)
    ensures SentSince(Advance(m, later), base, k)
    decreases later
  {
    if later != [] {
      SinceNext(m.s, later[0], LastAbout(m.log, k), |m.log|, base, k);
      EmitsMore(m.log, Emits(m.s, later[0]), _ => true, k);
      SinceSteps(Moment(Next(m.s, later[0]), m.log + Emits(m.s, later[0])), later[1..], base, k);
    }
  }

  predicate Outed(step: Step) { step.ServerDown? || step.FailedPoll? }

  lemma OutageStarts(steps: seq<Step>, outage: Step, k: string)
    requires Run(steps).phase.Idle? && Outed(outage)
    ensures SentSince(At(steps + [outage]), |Log(steps)|, k)
  {
    LogMore(steps, outage);
    NothingLive(Run(steps).db, outage.now);
  }

  /** After an outage between polls, every pane that is live has been emitted since. */
  lemma OutageResends(steps: seq<Step>, outage: Step, later: seq<Step>, all: seq<Step>, k: string)
    requires Run(steps).phase.Idle? && Outed(outage) && all == steps + [outage] + later
    ensures SentSince(At(all), |Log(steps)|, k)
  {
    OutageStarts(steps, outage, k);
    AdvanceRun(steps + [outage], later, all);
    SinceSteps(At(steps + [outage]), later, |Log(steps)|, k);
  }

  /**
   * An outage between polls heals a lost update, which a restart does not: once a pane is live again and the
   * emits since the outage got through, the consumer holds its fields, whatever was lost before.
   */
  lemma OutageHeals(steps: seq<Step>, outage: Step, later: seq<Step>, all: seq<Step>, sent: nat -> bool, k: string)
    requires Run(steps).phase.Idle? && Outed(outage) && all == steps + [outage] + later
    requires Proper(all) && k in Live(Run(all).db)
    requires forall j :: j >= |Log(steps)| ==> sent(j)
    ensures HoldsLive(all, sent, k)
  {
    OutageResends(steps, outage, later, all, k);
    TmuxView.ViewExactly(all, k);
    ConsumerExactly(all, sent, k);
  }
}
