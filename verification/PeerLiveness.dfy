/**
 * plugins/peer/liveness.go:21-55 with plugins/peer/store.go:112-138: one peer's liveness row, the loop
 * that supervises its subscription, and the proxy calls that mark the same row.
 */
module PeerLiveness {
  import opened Options
  import opened Sequences
  import opened Backoff

  /** backoffInitial, in milliseconds. */
  const INITIAL: nat := 500

  /** What can happen to one peer. The first three are the loop's, the last two come from mirror calls. */
  datatype Step =
    | Connect(at: int)
    | Lag(at: int, lag: int)
    | Drop(at: int, unauthorized: bool)
    | ProxySeen(at: int)
    | ProxyRejected(at: int)

  /** peer_state's columns, the loop's two variables, and what the loop did. */
  datatype State = State(lastSeen: Option<int>, stale: Option<int>, lag: int, backoff: nat, everUp: bool, emits: seq<int>, sleeps: seq<nat>)

  /** A row of peer_state: one just seeded, or one an earlier process left. */
  datatype Row = Row(lastSeen: Option<int>, stale: Option<int>, lag: int)

  /** A loop about to start on a row that is already there. */
  function Start(row: Row): State { State(row.lastSeen, row.stale, row.lag, INITIAL, false, [], []) }

  function MarkSeen(s: State, at: int, lag: int): State { s.(lastSeen := Some(at), stale := None, lag := lag) }

  /** Only the first failure of an outage is kept. */
  function MarkStale(s: State, at: int): State { if s.stale.None? then s.(stale := Some(at)) else s }

  function Next(s: State, step: Step, max: nat): State {
    match step
    case Connect(at) => MarkSeen(s, at, 0).(everUp := true, backoff := INITIAL)
    case Lag(at, lag) => MarkSeen(s, at, lag)
    case ProxySeen(at) => MarkSeen(s, at, 0)
    case ProxyRejected(at) => MarkStale(s, at)
    case Drop(at, unauthorized) =>
      var trans := s.stale.None?;
      MarkStale(s, at).(
        emits := if trans && s.everUp then s.emits + [at] else s.emits,
        everUp := if unauthorized then false else s.everUp,
        sleeps := s.sleeps + [s.backoff],
        backoff := Doubled(s.backoff, max))
  }

  function Run(row: Row, steps: seq<Step>, max: nat): State {
    if steps == [] then Start(row) else Next(Run(row, steps[..|steps| - 1], max), steps[|steps| - 1], max)
  }

  // ---------------------------------------------------------------- the history of a peer

  predicate Seen(step: Step) { step.Connect? || step.Lag? || step.ProxySeen? }

  /** The failure times since the peer was last seen, from the mark the row started with. */
  function Outage(row: Row, steps: seq<Step>): seq<int> {
    if steps == [] then (if row.stale.Some? then [row.stale.value] else [])
    else
      var last := steps[|steps| - 1];
      if Seen(last) then [] else Outage(row, steps[..|steps| - 1]) + [last.at]
  }

  /** The loop has connected, and no 401 came since its last connect. */
  predicate Up(steps: seq<Step>) {
    && steps != []
    && var last := steps[|steps| - 1];
    last.Connect? || (!(last.Drop? && last.unauthorized) && Up(steps[..|steps| - 1]))
  }

  /** How many drops in a row, since the last connect or the start. */
  function Failures(steps: seq<Step>): nat {
    if steps == [] then 0
    else
      var last := steps[|steps| - 1];
      if last.Connect? then 0 else Failures(steps[..|steps| - 1]) + (if last.Drop? then 1 else 0)
  }

  /**
   * The staleness history. stale_since is null exactly when no failure follows the last time the peer was
   * seen, and is otherwise the first such failure's time, whichever of loop and proxy marked it.
   */
  lemma {:induction false} StaleIsFirstFailure(row: Row, steps: seq<Step>, max: nat)
    ensures Run(row, steps, max).stale == if Outage(row, steps) == [] then None else Some(Outage(row, steps)[0])
    decreases steps
  {
    if steps != [] {
      StaleIsFirstFailure(row, steps[..|steps| - 1], max);
    }
  }

  /** When the peer was last seen, and the lag its stream then reported; the row it started with if never. */
  function LastSight(row: Row, steps: seq<Step>): (Option<int>, int) {
    if steps == [] then (row.lastSeen, row.lag)
    else
      match steps[|steps| - 1]
      case Connect(at) => (Some(at), 0)
      case Lag(at, lag) => (Some(at), lag)
      case ProxySeen(at) => (Some(at), 0)
      case _ => LastSight(row, steps[..|steps| - 1])
  }

  /** last_seen_at and the lag are those of the last sighting, whoever made it; failures leave them alone. */
  lemma {:induction false} SightIsLast(row: Row, steps: seq<Step>, max: nat)
    ensures (Run(row, steps, max).lastSeen, Run(row, steps, max).lag) == LastSight(row, steps)
    decreases steps
  {
    if steps != [] {
      SightIsLast(row, steps[..|steps| - 1], max);
    }
  }

  lemma {:induction false} EverUpIsUp(row: Row, steps: seq<Step>, max: nat)
    ensures Run(row, steps, max).everUp <==> Up(steps)
    decreases steps
  {
    if steps != [] {
      EverUpIsUp(row, steps[..|steps| - 1], max);
    }
  }

  lemma {:induction false} UpHasConnect(steps: seq<Step>)
    requires Up(steps)
    ensures exists k :: 0 <= k < |steps| && steps[k].Connect? && forall m :: k < m < |steps| ==> !(steps[m].Drop? && steps[m].unauthorized)
    decreases steps
  {
    var n := |steps| - 1;
    if !steps[n].Connect? {
      UpHasConnect(steps[..n]);
      var k :| 0 <= k < n && steps[..n][k].Connect? && forall m :: k < m < n ==> !(steps[..n][m].Drop? && steps[..n][m].unauthorized);
      assert steps[k].Connect?;
      forall m | k < m < |steps| ensures !(steps[m].Drop? && steps[m].unauthorized) {
        assert m < n ==> steps[..n][m] == steps[m];
      }
    }
  }

  /** Step `j` of a run emits peer.stale. */
  predicate EmitsAt(row: Row, steps: seq<Step>, j: nat, max: nat)
    requires j < |steps|
  {
    Run(row, steps[..j + 1], max).emits != Run(row, steps[..j], max).emits
  }

  lemma RunStep(row: Row, steps: seq<Step>, j: nat, max: nat)
    requires j < |steps|
    ensures Run(row, steps[..j + 1], max) == Next(Run(row, steps[..j], max), steps[j], max)
  {
    assert steps[..j + 1][..j] == steps[..j];
  }

  /** The loop emits exactly at a drop that starts an outage while the loop counts as up. */
  lemma EmitsExactly(row: Row, steps: seq<Step>, j: nat, max: nat)
    requires j < |steps|
    ensures EmitsAt(row, steps, j, max) <==> steps[j].Drop? && Outage(row, steps[..j]) == [] && Up(steps[..j])
    ensures EmitsAt(row, steps, j, max) ==> Run(row, steps[..j + 1], max).emits == Run(row, steps[..j], max).emits + [steps[j].at]
  {
    RunStep(row, steps, j, max);
    StaleIsFirstFailure(row, steps[..j], max);
    EverUpIsUp(row, steps[..j], max);
    var e := Run(row, steps[..j], max).emits;
    assert |e + [steps[j].at]| != |e|;
  }

  /** With no outage open, the peer was seen after any earlier failure. */
  lemma SeenSince(row: Row, steps: seq<Step>, i: nat, j: nat)
    requires i < j <= |steps| && !Seen(steps[i]) && Outage(row, steps[..j]) == []
    ensures exists k :: i < k < j && Seen(steps[k])
  {
    assert steps[..j][|steps[..j]| - 1] == steps[j - 1];
    assert Seen(steps[j - 1]);
  }

  /** Between two peer.stale emits the peer was seen, and no emit comes before the loop's first connect. */
  lemma EmitsSeparated(row: Row, steps: seq<Step>, j: nat, max: nat)
    requires j < |steps| && EmitsAt(row, steps, j, max)
    ensures exists k :: 0 <= k < j && steps[k].Connect?
    ensures forall i :: 0 <= i < j && EmitsAt(row, steps, i, max) ==> exists k :: i < k < j && Seen(steps[k])
  {
    EmitsExactly(row, steps, j, max);
    UpHasConnect(steps[..j]);
    var c :| 0 <= c < j && steps[..j][c].Connect?;
    assert steps[c].Connect?;
    forall i | 0 <= i < j && EmitsAt(row, steps, i, max) ensures exists k :: i < k < j && Seen(steps[k]) {
      EmitsExactly(row, steps, i, max);
      SeenSince(row, steps, i, j);
    }
  }

  /** A 401 on a proxied call that lands first takes the transition: the drop that follows is silent, on any row. */
  lemma ProxyHidesTheDrop(row: Row, a: int, b: int, c: int, max: nat)
    ensures Run(row, [Connect(a), ProxyRejected(b), Drop(c, false)], max).emits == []
    ensures Run(row, [Connect(a), Drop(c, false)], max).emits == [c]
  {
    var s0, s1 := [Connect(a)], [Connect(a), ProxyRejected(b)];
    RunMore(row, [], Connect(a), max);
    RunMore(row, s0, ProxyRejected(b), max);
    RunMore(row, s1, Drop(c, false), max);
    RunMore(row, s0, Drop(c, false), max);
    assert [] + [Connect(a)] == s0 && s0 + [ProxyRejected(b)] == s1;
    assert s1 + [Drop(c, false)] == [Connect(a), ProxyRejected(b), Drop(c, false)];
    assert s0 + [Drop(c, false)] == [Connect(a), Drop(c, false)];
  }

  // ---------------------------------------------------------------- backoff

  lemma {:induction false} BackoffIs(row: Row, steps: seq<Step>, max: nat)
    ensures Run(row, steps, max).backoff == SleepOf(INITIAL, Failures(steps), max)
    decreases steps
  {
    if steps != [] {
      var init := steps[..|steps| - 1];
      BackoffIs(row, init, max);
      SleepDoubles(INITIAL, Failures(init), max);
    }
  }

  /** Every drop sleeps exactly what its place in the row of failures says. */
  lemma SleepsExactly(row: Row, steps: seq<Step>, j: nat, max: nat)
    requires j < |steps| && steps[j].Drop?
    ensures var before, after := Run(row, steps[..j], max).sleeps, Run(row, steps[..j + 1], max).sleeps;
            after == before + [SleepOf(INITIAL, Failures(steps[..j]), max)]
  {
    RunStep(row, steps, j, max);
    BackoffIs(row, steps[..j], max);
  }

  /** The k-th consecutive failure sleeps min(500ms * 2^k, max) for every k if and only if the cap is at least 500ms. */
  lemma SleepFormulaExactly(max: nat)
    ensures (forall k :: SleepOf(INITIAL, k, max) == Min(INITIAL * Pow2(k), max)) <==> max >= INITIAL
  {
    FormulaExactly(INITIAL, max);
  }

  /** In milliseconds, with the cap of the configuration: half a second, then twice as long each time, up to the cap. */
  lemma SleepsFrom500(row: Row, steps: seq<Step>, j: nat, max: nat)
    requires j < |steps| && steps[j].Drop? && max >= 500
    ensures var slept := Run(row, steps[..j + 1], max).sleeps;
            && |slept| > 0
            && (Failures(steps[..j]) == 0 ==> slept[|slept| - 1] == 500)
            && (Failures(steps[..j]) == 1 ==> slept[|slept| - 1] == if max < 1000 then max else 1000)
            && (Failures(steps[..j]) == 2 ==> slept[|slept| - 1] == if max < 2000 then max else 2000)
  {
    SleepsExactly(row, steps, j, max);
    assert Pow2(1) == 2 && Pow2(2) == 4;
  }

  // ---------------------------------------------------------------- the loop as it runs

  /** One subscription: whether it connected, the lag frames it pushed, how it ended, whether the context did first. */
  datatype Session = Session(connect: Option<int>, frames: seq<(int, int)>, end: int, unauthorized: bool, cancelled: bool)

  function FrameSteps(frames: seq<(int, int)>): seq<Step> {
    if frames == [] then [] else FrameSteps(frames[..|frames| - 1]) + [Lag(frames[|frames| - 1].0, frames[|frames| - 1].1)]
  }

  function SessionSteps(s: Session): seq<Step> {
    (if s.connect.Some? then [Connect(s.connect.value)] else [])
    + FrameSteps(s.frames)
    + (if s.cancelled then [] else [Drop(s.end, s.unauthorized)])
  }

  /** A cancelled session is the last one the loop runs. */
  function AllSteps(sessions: seq<Session>): seq<Step>
    decreases sessions
  {
    if sessions == [] then []
    else if sessions[0].cancelled then SessionSteps(sessions[0])
    else SessionSteps(sessions[0]) + AllSteps(sessions[1..])
  }

  lemma RunMore(row: Row, steps: seq<Step>, step: Step, max: nat)
    ensures Run(row, steps + [step], max) == Next(Run(row, steps, max), step, max)
  {
    assert (steps + [step])[..|steps|] == steps;
  }

  /** The loop's variables, and what it emitted and slept. */
  datatype Loop = Loop(backoff: nat, everUp: bool, emits: seq<int>, sleeps: seq<nat>)

  class Peer {
    var lastSeen: Option<int>
    var stale: Option<int>
    var lag: int

    /** A row just seeded by initState. */
    constructor ()
      ensures lastSeen == None && stale == None && lag == 0
    {
      lastSeen, stale, lag := None, None, 0;
    }

    method Seen(at: int, lagSeconds: int)
      modifies this
      ensures lastSeen == Some(at) && stale == None && lag == lagSeconds
    {
      lastSeen, stale, lag := Some(at), None, lagSeconds;
    }

    method Stale(at: int) returns (trans: bool)
      modifies this`stale
      ensures trans <==> old(stale).None?
      ensures stale == if old(stale).None? then Some(at) else old(stale)
    {
      trans := stale.None?;
      if trans {
        stale := Some(at);
      }
    }

    /** The row and the loop's variables are those of the steps so far. */
    ghost predicate Agrees(row: Row, steps: seq<Step>, max: nat, l: Loop)
      reads this
    {
      Run(row, steps, max) == State(lastSeen, stale, lag, l.backoff, l.everUp, l.emits, l.sleeps)
    }

    method Frames(frames: seq<(int, int)>, ghost row: Row, ghost steps: seq<Step>, max: nat, l: Loop)
      requires Agrees(row, steps, max, l)
      modifies this
      ensures Agrees(row, steps + FrameSteps(frames), max, l)
    {
      assert steps + FrameSteps([]) == steps;
      for i := 0 to |frames|
        invariant Agrees(row, steps + FrameSteps(frames[..i]), max, l)
      {
        var f := frames[i];
        assert frames[..i + 1][..i] == frames[..i];
        ghost var so := steps + FrameSteps(frames[..i]);
        assert steps + FrameSteps(frames[..i + 1]) == so + [Lag(f.0, f.1)];
        RunMore(row, so, Lag(f.0, f.1), max);
        Seen(f.0, f.1);
      }
      assert frames[..|frames|] == frames;
    }

    /** What follows a subscription that ended: the mark, the emit, the sleep, the doubling. */
    method Dropped(at: int, unauthorized: bool, ghost row: Row, ghost steps: seq<Step>, max: nat, l: Loop) returns (l': Loop)
      requires Agrees(row, steps, max, l)
      modifies this
      ensures Agrees(row, steps + [Drop(at, unauthorized)], max, l')
    {
      RunMore(row, steps, Drop(at, unauthorized), max);
      var trans := Stale(at);
      l' := l;
      if trans && l.everUp {
        l' := l'.(emits := l.emits + [at]);
      }
      if unauthorized {
        l' := l'.(everUp := false);
      }
      l' := l'.(sleeps := l.sleeps + [l.backoff], backoff := 2 * l.backoff);
      if l'.backoff > max {
        l' := l'.(backoff := max);
      }
    }

    /** One turn of the loop. */
    method Turn(s: Session, ghost row: Row, ghost steps: seq<Step>, max: nat, l: Loop) returns (l': Loop)
      requires Agrees(row, steps, max, l)
      modifies this
      ensures Agrees(row, steps + SessionSteps(s), max, l')
    {
      l' := l;
      ghost var head := if s.connect.Some? then [Connect(s.connect.value)] else [];
      if s.connect.Some? {
        RunMore(row, steps, Connect(s.connect.value), max);
        l' := l.(everUp := true, backoff := INITIAL);
        Seen(s.connect.value, 0);
      } else {
        assert steps + head == steps;
      }
      Frames(s.frames, row, steps + head, max, l');
      ghost var so := steps + head + FrameSteps(s.frames);
      if s.cancelled {
        assert steps + SessionSteps(s) == so;
      } else {
        l' := Dropped(s.end, s.unauthorized, row, so, max, l');
        assert steps + SessionSteps(s) == so + [Drop(s.end, s.unauthorized)];
      }
    }

    /** The row as it stands. */
    ghost function View(): Row
      reads this
    {
      Row(lastSeen, stale, lag)
    }

    /** runLiveness over a script of subscriptions, on whatever row it finds. */
    method RunLiveness(sessions: seq<Session>, max: nat) returns (l: Loop)
      modifies this
      ensures Agrees(old(View()), AllSteps(sessions), max, l)
    {
      l := Loop(INITIAL, false, [], []);
      ghost var row := View();
      ghost var steps: seq<Step> := [];
      var i := 0;
      StartSplit(sessions);
      while i < |sessions|
        invariant 0 <= i <= |sessions|
        invariant Agrees(row, steps, max, l)
        invariant steps + AllSteps(sessions[i..]) == AllSteps(sessions)
      {
        SplitMore(sessions, i, steps);
        l := Turn(sessions[i], row, steps, max, l);
        steps := steps + SessionSteps(sessions[i]);
        if sessions[i].cancelled {
          return;
        }
        i := i + 1;
      }
      EndSplit(sessions, steps);
    }
  }

  lemma {:induction false} FramesInOrder(frames: seq<(int, int)>)
    ensures |FrameSteps(frames)| == |frames|
    ensures forall i :: 0 <= i < |frames| ==> FrameSteps(frames)[i] == Lag(frames[i].0, frames[i].1)
  {
    if frames != [] {
      FramesInOrder(frames[..|frames| - 1]);
    }
  }

  /** What one subscription does to the peer: it is connected if it was, then lags frame by frame, then drops unless cancelled. */
  lemma SessionIs(s: Session)
    ensures var steps, c, d := SessionSteps(s), if s.connect.Some? then 1 else 0, if s.cancelled then 0 else 1;
            && |steps| == c + |s.frames| + d
            && (s.connect.Some? ==> steps[0] == Connect(s.connect.value))
            && (forall i :: 0 <= i < |s.frames| ==> steps[c + i] == Lag(s.frames[i].0, s.frames[i].1))
            && (!s.cancelled ==> steps[c + |s.frames|] == Drop(s.end, s.unauthorized))
  {
    FramesInOrder(s.frames);
  }

  /** And the loop runs its subscriptions in order, the first cancelled one being the last. */
  lemma {:induction false} LoopIs(sessions: seq<Session>, more: seq<Session>)
    requires forall i :: 0 <= i < |sessions| ==> !sessions[i].cancelled
    ensures AllSteps(sessions + more) == AllSteps(sessions) + AllSteps(more)
    decreases sessions
  {
    if sessions == [] {
      assert sessions + more == more;
    } else {
      LoopIs(sessions[1..], more);
      assert (sessions + more)[1..] == sessions[1..] + more;
      Regroup(SessionSteps(sessions[0]), AllSteps(sessions[1..]), AllSteps(more));
    }
  }

  lemma StartSplit(sessions: seq<Session>)
    ensures [] + AllSteps(sessions[0..]) == AllSteps(sessions)
  {
    assert sessions[0..] == sessions;
  }

  lemma EndSplit(sessions: seq<Session>, steps: seq<Step>)
    ensures steps + AllSteps(sessions[|sessions|..]) == steps
  {
    assert sessions[|sessions|..] == [];
    assert steps + [] == steps;
  }

  /** One turn further: the steps so far grow by the session's, and after a cancelled one nothing is left. */
  lemma SplitMore(sessions: seq<Session>, i: nat, steps: seq<Step>)
    requires i < |sessions| && steps + AllSteps(sessions[i..]) == AllSteps(sessions)
    ensures sessions[i].cancelled ==> steps + SessionSteps(sessions[i]) == AllSteps(sessions)
    ensures !sessions[i].cancelled ==> (steps + SessionSteps(sessions[i])) + AllSteps(sessions[i + 1..]) == AllSteps(sessions)
  {
    assert sessions[i..][0] == sessions[i] && sessions[i..][1..] == sessions[i + 1..];
    Regroup(steps, SessionSteps(sessions[i]), AllSteps(sessions[i + 1..]));
  }
}
