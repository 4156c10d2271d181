/**
 * What a purge (plugins/github/store.go:144-179) promises while fetches and list reads (plugins/github/proxy.go
 * and executor.go) are in flight: exactly when an older body of the purged object can be stored again.
 */
module GithubPurge {
  import opened Options
  import opened GithubFetch

  function RunOn(w: World, pointOps: set<string>, later: seq<Step>): World
    decreases later
  {
    if later == [] then w else RunOn(Next(w, pointOps, later[0]), pointOps, later[1..])
  }

  predicate Old(members: map<string, nat>, k: string, v: nat) { k in members && members[k] < v }

  /**
   * The task has in hand a body of the object below version `v` that it may yet store. A fetch that has only
   * read its row has none, nor has one whose failing re-read would keep the canonical body it read.
   */
  predicate Carries(pointOps: set<string>, task: Task, k: string, v: nat) {
    match task
    case Reading(_, _) => false
    case Answered(j, stored, _, got) => j == k && got < v && !Keeps(pointOps, k, stored, false)
    case Writing(j, _, _, node, _) => j == k && node.body < v
    case Listing(members) => Old(members, k, v)
  }

  ghost predicate Carried(w: World, pointOps: set<string>, k: string, v: nat) {
    || (exists t :: t in w.tasks && Carries(pointOps, w.tasks[t], k, v))
    || (exists l :: l in w.lists && Old(w.lists[l], k, v))
  }

  predicate AtLeast(w: World, k: string, v: nat) { k in w.nodes ==> w.nodes[k].body >= v }

  ghost predicate Clear(w: World, pointOps: set<string>, k: string, v: nat) {
    Version(w, k) >= v && AtLeast(w, k, v) && !Carried(w, pointOps, k, v)
  }

  /** A step that leaves upstream and the object alone and brings in no older body. */
  lemma SameClear(w: World, w': World, pointOps: set<string>, k: string, v: nat)
    requires Clear(w, pointOps, k, v) && Version(w', k) >= v && AtLeast(w', k, v)
    requires forall t :: t in w'.tasks ==> (t in w.tasks && w'.tasks[t] == w.tasks[t]) || !Carries(pointOps, w'.tasks[t], k, v)
    requires forall l :: l in w'.lists ==> (l in w.lists && w'.lists[l] == w.lists[l]) || !Old(w'.lists[l], k, v)
    ensures Clear(w', pointOps, k, v)
  {}

  lemma GetClear(w: World, pointOps: set<string>, t: nat, answer: Answer, k: string, v: nat)
    requires Clear(w, pointOps, k, v) && t in w.tasks && w.tasks[t].Reading?
    ensures Clear(AfterGet(w, t, answer), pointOps, k, v)
  {
    SameClear(w, AfterGet(w, t, answer), pointOps, k, v);
  }

  lemma RereadClear(w: World, pointOps: set<string>, t: nat, ok: bool, k: string, v: nat)
    requires Clear(w, pointOps, k, v) && t in w.tasks && w.tasks[t].Answered?
    ensures Clear(AfterReread(w, pointOps, t, ok), pointOps, k, v)
  {
    assert !Carries(pointOps, w.tasks[t], k, v);
    SameClear(w, AfterReread(w, pointOps, t, ok), pointOps, k, v);
  }

  lemma WriteClear(w: World, pointOps: set<string>, t: nat, ok: bool, k: string, v: nat)
    requires Clear(w, pointOps, k, v) && t in w.tasks && w.tasks[t].Writing?
    ensures Clear(AfterWrite(w, t, ok), pointOps, k, v)
  {
    assert !Carries(pointOps, w.tasks[t], k, v);
    SameClear(w, AfterWrite(w, t, ok), pointOps, k, v);
  }

  lemma ListClear(w: World, pointOps: set<string>, s: Step, k: string, v: nat)
    requires Clear(w, pointOps, k, v) && (s.ListUpstream? || s.ListCached? || s.StoreMember? || s.PutList?)
    ensures Clear(Next(w, pointOps, s), pointOps, k, v)
  {
    if s.task in w.tasks {
      assert !Carries(pointOps, w.tasks[s.task], k, v);
    }
    SameClear(w, Next(w, pointOps, s), pointOps, k, v);
  }

  lemma StepClear(w: World, pointOps: set<string>, s: Step, k: string, v: nat)
    requires Clear(w, pointOps, k, v)
    ensures Clear(Next(w, pointOps, s), pointOps, k, v)
  {
    match s
    case Mutate(_) => SameClear(w, Next(w, pointOps, s), pointOps, k, v);
    case ReadRow(_, _) => SameClear(w, Next(w, pointOps, s), pointOps, k, v);
    case Get(t, answer) => if t in w.tasks && w.tasks[t].Reading? { GetClear(w, pointOps, t, answer, k, v); }
    case Reread(t, ok) => if t in w.tasks && w.tasks[t].Answered? { RereadClear(w, pointOps, t, ok, k, v); }
    case Write(t, ok) => if t in w.tasks && w.tasks[t].Writing? { WriteClear(w, pointOps, t, ok, k, v); }
    case Purge(_, _) => SameClear(w, Next(w, pointOps, s), pointOps, k, v);
    case _ => ListClear(w, pointOps, s, k, v);
  }

  lemma {:induction false} RunClear(w: World, pointOps: set<string>, later: seq<Step>, k: string, v: nat)
    requires Clear(w, pointOps, k, v)
    ensures Clear(RunOn(w, pointOps, later), pointOps, k, v)
    decreases later
  {
    if later != [] {
      StepClear(w, pointOps, later[0], k, v);
      RunClear(Next(w, pointOps, later[0]), pointOps, later[1..], k, v);
    }
  }

  // ---------------------------------------------------------------- an older body does come back

  lemma OneOn(w: World, pointOps: set<string>, a: Step)
    ensures RunOn(w, pointOps, [a]) == Next(w, pointOps, a)
  {
    assert [a][1..] == [];
  }

  lemma TwoOn(w: World, pointOps: set<string>, a: Step, b: Step)
    ensures RunOn(w, pointOps, [a, b]) == Next(Next(w, pointOps, a), pointOps, b)
  {
    assert [a, b][1..] == [b];
    OneOn(Next(w, pointOps, a), pointOps, b);
  }

  /** A task that carries an older body can store it in at most two more actions. */
  lemma TaskStores(w: World, pointOps: set<string>, t: nat, k: string, v: nat) returns (later: seq<Step>)
    requires t in w.tasks && Carries(pointOps, w.tasks[t], k, v)
    ensures !AtLeast(RunOn(w, pointOps, later), k, v)
  {
    match w.tasks[t]
    case Answered(_, _, _, _) =>
      later := [Reread(t, false), Write(t, true)];
      TwoOn(w, pointOps, Reread(t, false), Write(t, true));
    case Writing(_, _, _, _, _) =>
      later := [Write(t, true)];
      OneOn(w, pointOps, Write(t, true));
    case Listing(_) =>
      later := [StoreMember(t, k, Graph)];
      OneOn(w, pointOps, StoreMember(t, k, Graph));
  }

  lemma {:induction false} AboveAll(used: set<nat>) returns (n: nat)
    ensures forall x :: x in used ==> x < n
  {
    n := 0;
    if used != {} {
      var x :| x in used;
      var m := AboveAll(used - {x});
      n := if m > x then m else x + 1;
      assert forall y :: y in used ==> y == x || y in used - {x};
    }
  }

  /** A cached list that carries an older body can be read and its member stored. */
  lemma ListStores(w: World, pointOps: set<string>, l: string, k: string, v: nat) returns (later: seq<Step>)
    requires l in w.lists && Old(w.lists[l], k, v)
    ensures !AtLeast(RunOn(w, pointOps, later), k, v)
  {
    var t := AboveAll(w.tasks.Keys);
    assert t !in w.tasks;
    later := [ListCached(t, l), StoreMember(t, k, Graph)];
    TwoOn(w, pointOps, ListCached(t, l), StoreMember(t, k, Graph));
  }

  // ---------------------------------------------------------------- the contract of a purge

  /**
   * After a purge, through every continuation, whatever is stored of the object is at least upstream's
   * version at the purge, if and only if no task in flight and no list left carries an older body of it.
   */
  lemma PurgeExactly(w0: World, pointOps: set<string>, k: string, evicted: set<string>)
    ensures var w := Next(w0, pointOps, Purge(k, evicted));
            (forall later :: AtLeast(RunOn(w, pointOps, later), k, Version(w, k))) <==> !Carried(w, pointOps, k, Version(w, k))
  {
    var w := Next(w0, pointOps, Purge(k, evicted));
    var v := Version(w, k);
    if Carried(w, pointOps, k, v) {
      if t :| t in w.tasks && Carries(pointOps, w.tasks[t], k, v) {
        var later := TaskStores(w, pointOps, t, k, v);
      } else {
        var l :| l in w.lists && Old(w.lists[l], k, v);
        var later := ListStores(w, pointOps, l, k, v);
      }
    } else {
      forall later ensures AtLeast(RunOn(w, pointOps, later), k, v) {
        RunClear(w, pointOps, later, k, v);
      }
    }
  }

  /** A fetch whose GET came before the change and whose write comes after the purge. */
  function Straddling(k: string): seq<Step> {
    [ReadRow(0, k), Get(0, Object(true)), Mutate(k), Purge(k, {}), Reread(0, false), Write(0, true)]
  }

  /** It stores the version the purge was for: the object is cached at 0 while upstream is at 1. */
  lemma StraddlingFetchStoresOld(pointOps: set<string>, k: string, steps: seq<Step>)
    requires steps == Straddling(k)
    ensures var w := Run(pointOps, steps); k in w.nodes && w.nodes[k].body == 0 && Version(w, k) == 1
  {
    StraddlingSetup(pointOps, k, steps);
    var w := Run(pointOps, steps[..3]);
    var task := Answered(k, None, Some(0), 0);
    assert steps == steps[..3] + [steps[3], steps[4], steps[5]];
    RunThreeMore(pointOps, steps[..3], steps[3], steps[4], steps[5]);
    StraddlingEnd(w, pointOps, k, task);
  }

  lemma StraddlingSetup(pointOps: set<string>, k: string, steps: seq<Step>)
    requires steps == Straddling(k)
    ensures Run(pointOps, steps[..3]) == START.(tasks := map[0 := Answered(k, None, Some(0), 0)], upstream := map[k := 1])
  {
    assert steps[..0] == [];
    RunPrefix(pointOps, steps, 1);
    RunPrefix(pointOps, steps, 2);
    RunPrefix(pointOps, steps, 3);
  }

  lemma StraddlingEnd(w: World, pointOps: set<string>, k: string, task: Task)
    requires 0 in w.tasks && w.tasks[0] == task == Answered(k, None, Some(0), 0) && Version(w, k) == 1
    ensures var w' := Next(Next(Next(w, pointOps, Purge(k, {})), pointOps, Reread(0, false)), pointOps, Write(0, true));
            k in w'.nodes && w'.nodes[k].body == 0 && Version(w', k) == 1
  {
    var p := Next(w, pointOps, Purge(k, {}));
    var node := Node(Some(0), 0, Rest);
    assert Next(p, pointOps, Reread(0, false)) == p.(tasks := p.tasks[0 := Writing(k, None, false, node, 0)]);
    WriteEffect(p, pointOps, 0, Writing(k, None, false, node, 0));
  }
}
