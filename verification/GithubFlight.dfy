/** plugins/github/proxy.go:49-68, singleflight, as an interleaving of any number of callers. */
module GithubFlight {
  import opened Options

  /** What a fetch function returns: a node or none, and an error or none. */
  datatype Fetched = Fetched(node: Option<string>, err: Option<string>)

  /** One in-flight fetch: the caller that leads it, and the WaitGroup as a flag. */
  datatype Flight = Flight(key: string, leader: nat, result: Option<Fetched>, done: bool)

  /** Where a caller stands between two lock regions or blocking points. */
  datatype Caller =
    | Running(key: string, flight: nat)     // leads: its fetch function is executing
    | Filled(key: string, flight: nat)      // leads: the function returned, the entry is still registered
    | Removed(key: string, flight: nat)     // leads: the entry is gone, Done not yet called
    | Waiting(key: string, flight: nat)     // found an entry and waits on it
    | Returned(key: string, flight: nat, result: Fetched)

  /** One completed call of a fetch function. */
  datatype Call = Call(caller: nat, key: string, flight: nat, result: Fetched)

  datatype State = State(flights: map<string, nat>, all: seq<Flight>, callers: map<nat, Caller>, calls: seq<Call>)

  datatype Step =
    | Enter(caller: nat, key: string)
    | Finish(caller: nat, result: Fetched)
    | Delete(caller: nat)
    | Done(caller: nat)
    | Wake(caller: nat)


  function Next(s: State, step: Step): State {
    match step
    case Enter(t, k) =>
      if t in s.callers then s
      else if k in s.flights then s.(callers := s.callers[t := Waiting(k, s.flights[k])])
      else s.(flights := s.flights[k := |s.all|], all := s.all + [Flight(k, t, None, false)], callers := s.callers[t := Running(k, |s.all|)])
    case Finish(t, r) =>
      if t in s.callers && s.callers[t].Running? && s.callers[t].flight < |s.all| then
        var Running(k, f) := s.callers[t];
        s.(all := s.all[f := s.all[f].(result := Some(r))], callers := s.callers[t := Filled(k, f)], calls := s.calls + [Call(t, k, f, r)])
      else s
    case Delete(t) =>
      if t in s.callers && s.callers[t].Filled? then
        var Filled(k, f) := s.callers[t];
        s.(flights := s.flights - {k}, callers := s.callers[t := Removed(k, f)])
      else s
    case Done(t) =>
      if t in s.callers && s.callers[t].Removed? && s.callers[t].flight < |s.all| && s.all[s.callers[t].flight].result.Some? then
        var Removed(k, f) := s.callers[t];
        s.(all := s.all[f := s.all[f].(done := true)], callers := s.callers[t := Returned(k, f, s.all[f].result.value)])
      else s
    case Wake(t) =>
      if t in s.callers && s.callers[t].Waiting? && s.callers[t].flight < |s.all|
         && s.all[s.callers[t].flight].done && s.all[s.callers[t].flight].result.Some? then
        var Waiting(k, f) := s.callers[t];
        s.(callers := s.callers[t := Returned(k, f, s.all[f].result.value)])
      else s
  }

  const START := State(map[], [], map[], [])

  function Run(steps: seq<Step>): State {
    if steps == [] then START else Next(Run(steps[..|steps| - 1]), steps[|steps| - 1])
  }

  // ---------------------------------------------------------------- the invariant

  predicate Leads(c: Caller) { c.Running? || c.Filled? || c.Removed? }

  predicate CallerOk(s: State, t: nat, c: Caller) {
    && c.flight < |s.all|
    && var f := s.all[c.flight];
    && f.key == c.key
    && (Leads(c) ==> f.leader == t && !f.done)
    && (c.Running? || c.Filled? ==> c.key in s.flights && s.flights[c.key] == c.flight)
    && (c.Running? ==> f.result.None?)
    && (c.Filled? || c.Removed? ==> f.result.Some?)
    && (c.Removed? ==> c.key in s.flights ==> s.flights[c.key] != c.flight)
    && (c.Returned? ==> f.done && f.result == Some(c.result))
  }

  predicate FlightOk(s: State, i: nat)
    requires i < |s.all|
  {
    var f := s.all[i];
    && (f.done ==> f.result.Some?)
    && (!f.done ==> f.leader in s.callers && Leads(s.callers[f.leader]) && s.callers[f.leader].flight == i)
  }

  predicate EntryOk(s: State, k: string)
    requires k in s.flights
  {
    var i := s.flights[k];
    && i < |s.all| && s.all[i].key == k && !s.all[i].done
    && s.all[i].leader in s.callers
    && var c := s.callers[s.all[i].leader]; (c.Running? || c.Filled?) && c.flight == i && c.key == k
  }

  /** Every fetch function ran once for its flight, and its result is the flight's. */
  predicate CallsOk(s: State) {
    && (forall i :: 0 <= i < |s.calls| ==>
          var c := s.calls[i];
          c.flight < |s.all| && s.all[c.flight].key == c.key && s.all[c.flight].leader == c.caller && s.all[c.flight].result == Some(c.result))
    && (forall i, j :: 0 <= i < j < |s.calls| ==> s.calls[i].flight != s.calls[j].flight)
    && (forall f :: 0 <= f < |s.all| && s.all[f].result.Some? ==> exists i :: 0 <= i < |s.calls| && s.calls[i].flight == f)
  }

  predicate Valid(s: State) {
    && (forall t :: t in s.callers ==> CallerOk(s, t, s.callers[t]))
    && (forall i :: 0 <= i < |s.all| ==> FlightOk(s, i))
    && (forall k :: k in s.flights ==> EntryOk(s, k))
    && CallsOk(s)
  }

  lemma EnterCaller(s: State, t: nat, k: string, u: nat)
    requires Valid(s) && t !in s.callers && u in Next(s, Enter(t, k)).callers
    ensures CallerOk(Next(s, Enter(t, k)), u, Next(s, Enter(t, k)).callers[u])
  {
    assert u != t ==> CallerOk(s, u, s.callers[u]);
    assert k in s.flights ==> EntryOk(s, k);
  }

  lemma EnterFlight(s: State, t: nat, k: string, i: nat)
    requires Valid(s) && t !in s.callers && i < |Next(s, Enter(t, k)).all|
    ensures FlightOk(Next(s, Enter(t, k)), i)
  {
    assert i < |s.all| ==> FlightOk(s, i);
  }

  lemma EnterEntry(s: State, t: nat, k: string, j: string)
    requires Valid(s) && t !in s.callers && j in Next(s, Enter(t, k)).flights
    ensures EntryOk(Next(s, Enter(t, k)), j)
  {
    assert j in s.flights ==> EntryOk(s, j);
  }

  lemma EnterKeeps(s: State, t: nat, k: string)
    requires Valid(s) && t !in s.callers
    ensures Valid(Next(s, Enter(t, k)))
  {
    var s' := Next(s, Enter(t, k));
    forall u | u in s'.callers ensures CallerOk(s', u, s'.callers[u]) { EnterCaller(s, t, k, u); }
    forall i | 0 <= i < |s'.all| ensures FlightOk(s', i) { EnterFlight(s, t, k, i); }
    forall j | j in s'.flights ensures EntryOk(s', j) { EnterEntry(s, t, k, j); }
    SameCalls(s, s', [Flight(k, t, None, false)]);
  }

  /** A step that runs no fetch function and changes no flight's key, leader or result keeps the calls in order. */
  lemma SameCalls(s: State, s': State, added: seq<Flight>)
    requires CallsOk(s) && s'.calls == s.calls && |s.all| <= |s'.all| <= |s.all| + |added|
    requires forall i :: 0 <= i < |s.all| ==>
               s'.all[i].key == s.all[i].key && s'.all[i].leader == s.all[i].leader && s'.all[i].result == s.all[i].result
    requires forall i :: |s.all| <= i < |s'.all| ==> s'.all[i].result.None?
    ensures CallsOk(s')
  {}

  lemma FinishCalls(s: State, t: nat, r: Fetched)
    requires Valid(s) && t in s.callers && s.callers[t].Running?
    ensures CallsOk(Next(s, Finish(t, r)))
  {
    var s' := Next(s, Finish(t, r));
    assert CallerOk(s, t, s.callers[t]);
    var f := s.callers[t].flight;
    assert s'.calls[|s.calls|].flight == f;
    forall g | 0 <= g < |s'.all| && s'.all[g].result.Some? ensures exists i :: 0 <= i < |s'.calls| && s'.calls[i].flight == g {
      if g != f {
        var i :| 0 <= i < |s.calls| && s.calls[i].flight == g;
        assert s'.calls[i] == s.calls[i];
      }
    }
  }

  lemma FinishCaller(s: State, t: nat, r: Fetched, u: nat)
    requires Valid(s) && t in s.callers && s.callers[t].Running? && u in Next(s, Finish(t, r)).callers
    ensures CallerOk(Next(s, Finish(t, r)), u, Next(s, Finish(t, r)).callers[u])
  {
    assert CallerOk(s, t, s.callers[t]) && CallerOk(s, u, s.callers[u]);
  }

  lemma FinishFlight(s: State, t: nat, r: Fetched, i: nat)
    requires Valid(s) && t in s.callers && s.callers[t].Running? && i < |Next(s, Finish(t, r)).all|
    ensures FlightOk(Next(s, Finish(t, r)), i)
  {
    assert CallerOk(s, t, s.callers[t]) && FlightOk(s, i);
  }

  lemma FinishEntry(s: State, t: nat, r: Fetched, j: string)
    requires Valid(s) && t in s.callers && s.callers[t].Running? && j in Next(s, Finish(t, r)).flights
    ensures EntryOk(Next(s, Finish(t, r)), j)
  {
    assert CallerOk(s, t, s.callers[t]) && EntryOk(s, j);
  }

  lemma FinishKeeps(s: State, t: nat, r: Fetched)
    requires Valid(s) && t in s.callers && s.callers[t].Running?
    ensures Valid(Next(s, Finish(t, r)))
  {
    var s' := Next(s, Finish(t, r));
    forall u | u in s'.callers ensures CallerOk(s', u, s'.callers[u]) { FinishCaller(s, t, r, u); }
    forall i | 0 <= i < |s'.all| ensures FlightOk(s', i) { FinishFlight(s, t, r, i); }
    forall j | j in s'.flights ensures EntryOk(s', j) { FinishEntry(s, t, r, j); }
    FinishCalls(s, t, r);
  }

  lemma DeleteCaller(s: State, t: nat, u: nat)
    requires Valid(s) && t in s.callers && s.callers[t].Filled? && u in Next(s, Delete(t)).callers
    ensures CallerOk(Next(s, Delete(t)), u, Next(s, Delete(t)).callers[u])
  {
    assert CallerOk(s, t, s.callers[t]) && CallerOk(s, u, s.callers[u]);
  }

  lemma DeleteFlight(s: State, t: nat, i: nat)
    requires Valid(s) && t in s.callers && s.callers[t].Filled? && i < |Next(s, Delete(t)).all|
    ensures FlightOk(Next(s, Delete(t)), i)
  {
    assert CallerOk(s, t, s.callers[t]) && FlightOk(s, i);
  }

  lemma DeleteEntry(s: State, t: nat, j: string)
    requires Valid(s) && t in s.callers && s.callers[t].Filled? && j in Next(s, Delete(t)).flights
    ensures EntryOk(Next(s, Delete(t)), j)
  {
    assert CallerOk(s, t, s.callers[t]) && EntryOk(s, j);
  }

  lemma DeleteKeeps(s: State, t: nat)
    requires Valid(s) && t in s.callers && s.callers[t].Filled?
    ensures Valid(Next(s, Delete(t)))
  {
    var s' := Next(s, Delete(t));
    forall u | u in s'.callers ensures CallerOk(s', u, s'.callers[u]) { DeleteCaller(s, t, u); }
    forall i | 0 <= i < |s'.all| ensures FlightOk(s', i) { DeleteFlight(s, t, i); }
    forall j | j in s'.flights ensures EntryOk(s', j) { DeleteEntry(s, t, j); }
    SameCalls(s, s', []);
  }

  lemma DoneCaller(s: State, t: nat, u: nat)
    requires Valid(s) && t in s.callers && s.callers[t].Removed? && u in Next(s, Done(t)).callers
    ensures CallerOk(Next(s, Done(t)), u, Next(s, Done(t)).callers[u])
  {
    assert CallerOk(s, t, s.callers[t]) && CallerOk(s, u, s.callers[u]);
  }

  lemma DoneFlight(s: State, t: nat, i: nat)
    requires Valid(s) && t in s.callers && s.callers[t].Removed? && i < |Next(s, Done(t)).all|
    ensures FlightOk(Next(s, Done(t)), i)
  {
    assert CallerOk(s, t, s.callers[t]) && FlightOk(s, i);
  }

  lemma DoneEntry(s: State, t: nat, j: string)
    requires Valid(s) && t in s.callers && s.callers[t].Removed? && j in Next(s, Done(t)).flights
    ensures EntryOk(Next(s, Done(t)), j)
  {
    assert CallerOk(s, t, s.callers[t]) && EntryOk(s, j);
  }

  lemma DoneKeeps(s: State, t: nat)
    requires Valid(s) && t in s.callers && s.callers[t].Removed?
    ensures Valid(Next(s, Done(t)))
  {
    var s' := Next(s, Done(t));
    forall u | u in s'.callers ensures CallerOk(s', u, s'.callers[u]) { DoneCaller(s, t, u); }
    forall i | 0 <= i < |s'.all| ensures FlightOk(s', i) { DoneFlight(s, t, i); }
    forall j | j in s'.flights ensures EntryOk(s', j) { DoneEntry(s, t, j); }
    SameCalls(s, s', []);
  }

  lemma WakeCaller(s: State, t: nat, u: nat)
    requires Valid(s) && t in s.callers && s.callers[t].Waiting? && u in Next(s, Wake(t)).callers
    ensures CallerOk(Next(s, Wake(t)), u, Next(s, Wake(t)).callers[u])
  {
    assert CallerOk(s, u, s.callers[u]);
  }

  lemma WakeFlight(s: State, t: nat, i: nat)
    requires Valid(s) && t in s.callers && s.callers[t].Waiting? && i < |Next(s, Wake(t)).all|
    ensures FlightOk(Next(s, Wake(t)), i)
  {
    assert i < |s.all| ==> FlightOk(s, i);
  }

  lemma WakeEntry(s: State, t: nat, j: string)
    requires Valid(s) && t in s.callers && s.callers[t].Waiting? && j in Next(s, Wake(t)).flights
    ensures EntryOk(Next(s, Wake(t)), j)
  {
    assert j in s.flights ==> EntryOk(s, j);
  }

  lemma WakeKeeps(s: State, t: nat)
    requires Valid(s) && t in s.callers && s.callers[t].Waiting?
    ensures Valid(Next(s, Wake(t)))
  {
    var s' := Next(s, Wake(t));
    forall u | u in s'.callers ensures CallerOk(s', u, s'.callers[u]) { WakeCaller(s, t, u); }
    forall i | 0 <= i < |s'.all| ensures FlightOk(s', i) { WakeFlight(s, t, i); }
    forall j | j in s'.flights ensures EntryOk(s', j) { WakeEntry(s, t, j); }
    SameCalls(s, s', []);
  }

  lemma StepKeeps(s: State, step: Step)
    requires Valid(s)
    ensures Valid(Next(s, step))
  {
    match step
    case Enter(t, k) => if t !in s.callers { EnterKeeps(s, t, k); }
    case Finish(t, r) => if t in s.callers && s.callers[t].Running? { FinishKeeps(s, t, r); }
    case Delete(t) => if t in s.callers && s.callers[t].Filled? { DeleteKeeps(s, t); }
    case Done(t) => if t in s.callers && s.callers[t].Removed? { DoneKeeps(s, t); }
    case Wake(t) => if t in s.callers && s.callers[t].Waiting? { WakeKeeps(s, t); }
  }

  lemma {:induction false} RunValid(steps: seq<Step>)
    ensures Valid(Run(steps))
  {
    if steps != [] {
      RunValid(steps[..|steps| - 1]);
      StepKeeps(Run(steps[..|steps| - 1]), steps[|steps| - 1]);
    }
  }

  // ---------------------------------------------------------------- the theorems

  /** At most one fetch function runs per key. */
  lemma OneFetchPerKey(steps: seq<Step>, t: nat, u: nat)
    requires var s := Run(steps);
             && t in s.callers && u in s.callers && s.callers[t].Running? && s.callers[u].Running?
             && s.callers[t].key == s.callers[u].key
    ensures t == u
  {
    RunValid(steps);
    var s := Run(steps);
    assert CallerOk(s, t, s.callers[t]) && CallerOk(s, u, s.callers[u]);
  }

  /**
   * Every caller that returned got what one fetch function returned for its key: the single call of
   * its flight, made by the flight's leader. Callers of one flight therefore got the same.
   */
  lemma EveryCallerGetsTheLeadersResult(steps: seq<Step>, t: nat)
    requires t in Run(steps).callers && Run(steps).callers[t].Returned?
    ensures var s := Run(steps);
            var c := s.callers[t];
            && c.flight < |s.all| && s.all[c.flight].key == c.key
            && (exists i :: 0 <= i < |s.calls| && s.calls[i] == Call(s.all[c.flight].leader, c.key, c.flight, c.result))
            && (forall i :: 0 <= i < |s.calls| && s.calls[i].flight == c.flight ==> s.calls[i].result == c.result)
  {
    RunValid(steps);
    var s := Run(steps);
    assert CallerOk(s, t, s.callers[t]);
    var i :| 0 <= i < |s.calls| && s.calls[i].flight == s.callers[t].flight;
    assert s.calls[i] == Call(s.all[s.callers[t].flight].leader, s.callers[t].key, s.callers[t].flight, s.callers[t].result);
  }

  /** Every entry still registered belongs to a caller that has not returned, so when all have returned none is left. */
  lemma EntriesBelongToActiveCallers(steps: seq<Step>)
    ensures var s := Run(steps);
            forall k :: k in s.flights ==> exists t :: t in s.callers && !s.callers[t].Returned? && s.callers[t].key == k
    ensures Run(steps).flights != map[] ==> exists t :: t in Run(steps).callers && !Run(steps).callers[t].Returned?
  {
    RunValid(steps);
    var s := Run(steps);
    forall k | k in s.flights ensures exists t :: t in s.callers && !s.callers[t].Returned? && s.callers[t].key == k {
      assert EntryOk(s, k);
    }
    if s.flights != map[] {
      var k :| k in s.flights;
      assert EntryOk(s, k);
    }
  }

  /** The step a caller is ready to take, given what its own function returns. */
  function Ready(s: State, t: nat, r: Fetched): Step
    requires t in s.callers
  {
    match s.callers[t]
    case Running(_, _) => Finish(t, r)
    case Filled(_, _) => Delete(t)
    case Removed(_, _) => Done(t)
    case _ => Wake(t)
  }

  /** Nobody is stuck: a caller that has not returned can move now, or the leader of the flight it waits on can. */
  lemma NoStuckCaller(steps: seq<Step>, t: nat, r: Fetched)
    requires t in Run(steps).callers && !Run(steps).callers[t].Returned?
    ensures var s := Run(steps);
            var c := s.callers[t];
            || Next(s, Ready(s, t, r)) != s
            || (c.Waiting? && c.flight < |s.all| && s.all[c.flight].leader in s.callers
                && s.all[c.flight].leader != t && Next(s, Ready(s, s.all[c.flight].leader, r)) != s)
  {
    RunValid(steps);
    var s := Run(steps);
    var c := s.callers[t];
    assert CallerOk(s, t, c);
    assert FlightOk(s, c.flight);
    if c.Waiting? && !s.all[c.flight].done {
      var l := s.all[c.flight].leader;
      assert CallerOk(s, l, s.callers[l]);
      LeaderMoves(s, l, r);
    } else if !c.Waiting? {
      LeaderMoves(s, t, r);
    } else {
      var s' := Next(s, Wake(t));
      assert s'.callers[t].Returned?;
    }
  }

  lemma LeaderMoves(s: State, l: nat, r: Fetched)
    requires Valid(s) && l in s.callers && Leads(s.callers[l])
    ensures Next(s, Ready(s, l, r)) != s
  {
    assert CallerOk(s, l, s.callers[l]);
    var s' := Next(s, Ready(s, l, r));
    assert s'.callers[l] != s.callers[l];
  }

  // ---------------------------------------------------------------- whose result it is

  /** The caller asked for the key. */
  ghost predicate Asked(steps: seq<Step>, t: nat, k: string) { exists j :: 0 <= j < |steps| && steps[j] == Enter(t, k) }

  /** The caller's own fetch function returned this. */
  ghost predicate Fetches(steps: seq<Step>, t: nat, r: Fetched) { exists j :: 0 <= j < |steps| && steps[j] == Finish(t, r) }

  /** Callers have the key they asked for, and a flight's result is what its leader's fetch function returned. */
  ghost predicate Told(steps: seq<Step>, s: State) {
    && (forall t :: t in s.callers ==> Asked(steps, t, s.callers[t].key))
    && (forall i :: 0 <= i < |s.all| ==> Asked(steps, s.all[i].leader, s.all[i].key))
    && (forall i :: 0 <= i < |s.all| && s.all[i].result.Some? ==> Fetches(steps, s.all[i].leader, s.all[i].result.value))
  }

  lemma AskedStays(steps: seq<Step>, step: Step, t: nat, k: string)
    ensures Asked(steps, t, k) ==> Asked(steps + [step], t, k)
  {
    if j :| 0 <= j < |steps| && steps[j] == Enter(t, k) {
      assert (steps + [step])[j] == Enter(t, k);
    }
  }

  lemma FetchesStays(steps: seq<Step>, step: Step, t: nat, r: Fetched)
    ensures Fetches(steps, t, r) ==> Fetches(steps + [step], t, r)
  {
    if j :| 0 <= j < |steps| && steps[j] == Finish(t, r) {
      assert (steps + [step])[j] == Finish(t, r);
    }
  }

  lemma CallerTold(steps: seq<Step>, s: State, step: Step, t: nat)
    requires Told(steps, s) && t in Next(s, step).callers
    ensures Asked(steps + [step], t, Next(s, step).callers[t].key)
  {
    assert (steps + [step])[|steps|] == step;
    if t in s.callers {
      AskedStays(steps, step, t, s.callers[t].key);
    }
  }

  lemma LeaderTold(steps: seq<Step>, s: State, step: Step, i: nat)
    requires Told(steps, s) && i < |Next(s, step).all|
    ensures var f := Next(s, step).all[i]; Asked(steps + [step], f.leader, f.key)
  {
    assert (steps + [step])[|steps|] == step;
    if i < |s.all| {
      AskedStays(steps, step, s.all[i].leader, s.all[i].key);
    }
  }

  lemma ResultTold(steps: seq<Step>, s: State, step: Step, i: nat)
    requires Valid(s) && Told(steps, s) && i < |Next(s, step).all| && Next(s, step).all[i].result.Some?
    ensures var f := Next(s, step).all[i]; Fetches(steps + [step], f.leader, f.result.value)
  {
    assert (steps + [step])[|steps|] == step;
    if i < |s.all| && s.all[i].result.Some? {
      FetchesStays(steps, step, s.all[i].leader, s.all[i].result.value);
    }
    if step.Finish? && step.caller in s.callers {
      assert CallerOk(s, step.caller, s.callers[step.caller]);
    }
  }

  lemma StepTold(steps: seq<Step>, s: State, step: Step)
    requires Valid(s) && Told(steps, s)
    ensures Told(steps + [step], Next(s, step))
  {
    var more, s' := steps + [step], Next(s, step);
    forall t | t in s'.callers ensures Asked(more, t, s'.callers[t].key) { CallerTold(steps, s, step, t); }
    forall i | 0 <= i < |s'.all| ensures Asked(more, s'.all[i].leader, s'.all[i].key) { LeaderTold(steps, s, step, i); }
    forall i | 0 <= i < |s'.all| && s'.all[i].result.Some? ensures Fetches(more, s'.all[i].leader, s'.all[i].result.value) {
      ResultTold(steps, s, step, i);
    }
  }

  lemma {:induction false} RunTold(steps: seq<Step>)
    ensures Told(steps, Run(steps))
    decreases steps
  {
    if steps != [] {
      var init := steps[..|steps| - 1];
      RunTold(init);
      RunValid(init);
      StepTold(init, Run(init), steps[|steps| - 1]);
      assert steps == init + [steps[|steps| - 1]];
    }
  }

  /** Every caller that returned asked for its key, and has what the fetch function of a caller of the same key returned. */
  lemma ReturnedWasFetched(steps: seq<Step>, t: nat)
    requires t in Run(steps).callers && Run(steps).callers[t].Returned?
    ensures var c := Run(steps).callers[t];
            Asked(steps, t, c.key) && exists l :: Asked(steps, l, c.key) && Fetches(steps, l, c.result)
  {
    RunTold(steps);
    RunValid(steps);
    var s := Run(steps);
    assert CallerOk(s, t, s.callers[t]);
    var f := s.all[s.callers[t].flight];
    assert Asked(steps, f.leader, f.key) && Fetches(steps, f.leader, f.result.value);
  }

  /** A caller that arrives while a fetch of its key is registered waits on that flight; any other starts the key's one flight. */
  lemma ArrivalJoins(steps: seq<Step>, t: nat, k: string)
    requires t !in Run(steps).callers
    ensures var s, s' := Run(steps), Next(Run(steps), Enter(t, k));
            && t in s'.callers && s'.callers[t].key == k
            && (k in s.flights ==> s'.callers[t] == Waiting(k, s.flights[k]) && s'.all == s.all)
            && (k !in s.flights ==> s'.callers[t] == Running(k, |s.all|) && s'.all == s.all + [Flight(k, t, None, false)] && k in s'.flights)
            && (forall u :: u in s.callers ==> u in s'.callers && s'.callers[u] == s.callers[u])
            && (forall u :: u in s.callers && (s.callers[u].Running? || s.callers[u].Filled?) && s.callers[u].key == k ==>
                              s'.callers[t] == Waiting(k, s.callers[u].flight))
  {
    RunValid(steps);
    var s := Run(steps);
    forall u | u in s.callers && (s.callers[u].Running? || s.callers[u].Filled?) && s.callers[u].key == k
      ensures k in s.flights && s.flights[k] == s.callers[u].flight
    {
      assert CallerOk(s, u, s.callers[u]);
    }
  }
}
