/**
 * Where stored bodies and ETags come from (plugins/github/proxy.go:97-138), over whole runs, and when a second
 * fetch is answered 304.
 */
module GithubReuse {
  import opened Options
  import opened GithubFetch

  // ---------------------------------------------------------------- what happened in a run

  function At(pointOps: set<string>, steps: seq<Step>, j: nat): World
    requires j <= |steps|
  {
    Run(pointOps, steps[..j])
  }

  /** Task `t` read the row of the key, and this is what the store held. */
  ghost predicate WasRead(pointOps: set<string>, steps: seq<Step>, t: nat, k: string, stored: Option<Node>) {
    exists j :: 0 <= j < |steps| && steps[j] == ReadRow(t, k) && stored == Lookup(At(pointOps, steps, j), k)
  }

  /** A GET of task `t` was answered with the object at version `got`, and with an ETag exactly when `etag` names that version. */
  ghost predicate WasGot(pointOps: set<string>, steps: seq<Step>, t: nat, k: string, got: nat, etag: Option<nat>) {
    exists j :: 0 <= j < |steps| && steps[j].Get? && steps[j].task == t && steps[j].answer.Object?
                && got == Version(At(pointOps, steps, j), k) && etag == if steps[j].answer.tagged then Some(got) else None
  }

  /** The canonical re-read of task `t` succeeded, and this is the version it found. */
  ghost predicate WasReread(pointOps: set<string>, steps: seq<Step>, t: nat, k: string, body: nat) {
    k in pointOps && exists j :: 0 <= j < |steps| && steps[j] == Reread(t, true) && body == Version(At(pointOps, steps, j), k)
  }

  /** A list query returned these versions. */
  ghost predicate WasListed(pointOps: set<string>, steps: seq<Step>, members: map<string, nat>) {
    exists j :: 0 <= j < |steps| && steps[j].ListUpstream?
                && members == map k | k in steps[j].keys :: Version(At(pointOps, steps, j), k)
  }

  /** A GET of task `t` failed or was answered with an error status. */
  ghost predicate WasRefused(steps: seq<Step>, t: nat) {
    exists j :: 0 <= j < |steps| && steps[j].Get? && steps[j].task == t && !steps[j].answer.Object?
  }

  /** A body a fetch lands: the ETag of its GET, and the body re-read in canonical shape, or else the one its GET gave. */
  ghost predicate LandedFrom(pointOps: set<string>, steps: seq<Step>, t: nat, k: string, stored: Option<Node>, reread: bool, n: Node, got: nat) {
    && WasRead(pointOps, steps, t, k, stored)
    && WasGot(pointOps, steps, t, k, got, n.etag)
    && (reread ==> WasReread(pointOps, steps, t, k, n.body) && n.shape == Graph)
    && (!reread ==> n.body == got && n.shape == Rest)
  }

  ghost predicate TaskFrom(pointOps: set<string>, steps: seq<Step>, t: nat, task: Task) {
    match task
    case Reading(k, stored) => WasRead(pointOps, steps, t, k, stored)
    case Answered(k, stored, etag, got) => WasRead(pointOps, steps, t, k, stored) && WasGot(pointOps, steps, t, k, got, etag)
    case Writing(k, stored, reread, n, got) => LandedFrom(pointOps, steps, t, k, stored, reread, n, got)
    case Listing(members) => WasListed(pointOps, steps, members)
  }

  ghost predicate FromFetch(pointOps: set<string>, steps: seq<Step>, k: string, n: Node) {
    exists t, stored, reread, got :: LandedFrom(pointOps, steps, t, k, stored, reread, n, got)
  }

  ghost predicate FromList(pointOps: set<string>, steps: seq<Step>, k: string, n: Node) {
    n.etag.None? && exists members :: WasListed(pointOps, steps, members) && k in members && n.body == members[k]
  }

  /** Where a row came from: a fetch, or a list, which never has an ETag. */
  ghost predicate NodeFrom(pointOps: set<string>, steps: seq<Step>, k: string, n: Node) {
    FromFetch(pointOps, steps, k, n) || FromList(pointOps, steps, k, n)
  }

  ghost predicate OutcomeOfTask(pointOps: set<string>, steps: seq<Step>, o: Outcome, t: nat) {
    match o
    case NotModified(k, n, got) =>
      n.etag == Some(got) && WasRead(pointOps, steps, t, k, Some(n)) && exists e :: WasGot(pointOps, steps, t, k, got, e)
    case Landed(k, stored, reread, n, got) =>
      LandedFrom(pointOps, steps, t, k, stored, reread, n, got) && exists j :: 0 <= j < |steps| && steps[j] == Write(t, true)
    case KeptStored(k, stored, reread, n, got) =>
      !reread && stored == Some(n) && WasRead(pointOps, steps, t, k, stored) && exists e :: WasGot(pointOps, steps, t, k, got, e)
    case ServedStored(k, kept) => WasRead(pointOps, steps, t, k, kept) && WasRefused(steps, t)
    case StoreFailed(_) => exists j :: 0 <= j < |steps| && steps[j] == Write(t, false)
  }

  ghost predicate OutcomeFrom(pointOps: set<string>, steps: seq<Step>, o: Outcome) {
    exists t :: OutcomeOfTask(pointOps, steps, o, t)
  }

  ghost predicate History(pointOps: set<string>, steps: seq<Step>, w: World) {
    && (forall t :: t in w.tasks ==> TaskFrom(pointOps, steps, t, w.tasks[t]))
    && (forall k :: k in w.nodes ==> NodeFrom(pointOps, steps, k, w.nodes[k]))
    && (forall l :: l in w.lists ==> WasListed(pointOps, steps, w.lists[l]))
    && (forall i :: 0 <= i < |w.log| ==> OutcomeFrom(pointOps, steps, w.log[i]))
  }

  // ---------------------------------------------------------------- what happened stays so

  predicate Extends(steps: seq<Step>, more: seq<Step>) { steps <= more }

  lemma SameAt(pointOps: set<string>, steps: seq<Step>, more: seq<Step>, j: nat)
    requires Extends(steps, more) && j <= |steps|
    ensures At(pointOps, more, j) == At(pointOps, steps, j)
  {
    assert more[..j] == steps[..j];
  }

  lemma ReadStays(pointOps: set<string>, steps: seq<Step>, more: seq<Step>, t: nat, k: string, stored: Option<Node>)
    requires Extends(steps, more) && WasRead(pointOps, steps, t, k, stored)
    ensures WasRead(pointOps, more, t, k, stored)
  {
    var j :| 0 <= j < |steps| && steps[j] == ReadRow(t, k) && stored == Lookup(At(pointOps, steps, j), k);
    SameAt(pointOps, steps, more, j);
    assert more[j] == steps[j];
  }

  lemma GotStays(pointOps: set<string>, steps: seq<Step>, more: seq<Step>, t: nat, k: string, got: nat, etag: Option<nat>)
    requires Extends(steps, more) && WasGot(pointOps, steps, t, k, got, etag)
    ensures WasGot(pointOps, more, t, k, got, etag)
  {
    var j :| 0 <= j < |steps| && steps[j].Get? && steps[j].task == t && steps[j].answer.Object?
             && got == Version(At(pointOps, steps, j), k) && etag == if steps[j].answer.tagged then Some(got) else None;
    SameAt(pointOps, steps, more, j);
    assert more[j] == steps[j];
  }

  lemma RereadStays(pointOps: set<string>, steps: seq<Step>, more: seq<Step>, t: nat, k: string, body: nat)
    requires Extends(steps, more) && WasReread(pointOps, steps, t, k, body)
    ensures WasReread(pointOps, more, t, k, body)
  {
    var j :| 0 <= j < |steps| && steps[j] == Reread(t, true) && body == Version(At(pointOps, steps, j), k);
    SameAt(pointOps, steps, more, j);
    assert more[j] == steps[j];
  }

  lemma ListedStays(pointOps: set<string>, steps: seq<Step>, more: seq<Step>, members: map<string, nat>)
    requires Extends(steps, more) && WasListed(pointOps, steps, members)
    ensures WasListed(pointOps, more, members)
  {
    var j :| 0 <= j < |steps| && steps[j].ListUpstream?
             && members == map k | k in steps[j].keys :: Version(At(pointOps, steps, j), k);
    SameAt(pointOps, steps, more, j);
    assert more[j] == steps[j];
  }

  lemma LandedStays(pointOps: set<string>, steps: seq<Step>, more: seq<Step>, t: nat, k: string, stored: Option<Node>, reread: bool,
                    n: Node, got: nat)
    requires Extends(steps, more) && LandedFrom(pointOps, steps, t, k, stored, reread, n, got)
    ensures LandedFrom(pointOps, more, t, k, stored, reread, n, got)
  {
    ReadStays(pointOps, steps, more, t, k, stored);
    GotStays(pointOps, steps, more, t, k, got, n.etag);
    if reread {
      RereadStays(pointOps, steps, more, t, k, n.body);
    }
  }

  lemma TaskStays(pointOps: set<string>, steps: seq<Step>, more: seq<Step>, t: nat, task: Task)
    requires Extends(steps, more) && TaskFrom(pointOps, steps, t, task)
    ensures TaskFrom(pointOps, more, t, task)
  {
    match task
    case Reading(k, stored) => ReadStays(pointOps, steps, more, t, k, stored);
    case Answered(k, stored, etag, got) =>
      ReadStays(pointOps, steps, more, t, k, stored);
      GotStays(pointOps, steps, more, t, k, got, etag);
    case Writing(k, stored, reread, n, got) => LandedStays(pointOps, steps, more, t, k, stored, reread, n, got);
    case Listing(members) => ListedStays(pointOps, steps, more, members);
  }

  lemma NodeStays(pointOps: set<string>, steps: seq<Step>, more: seq<Step>, k: string, n: Node)
    requires Extends(steps, more) && NodeFrom(pointOps, steps, k, n)
    ensures NodeFrom(pointOps, more, k, n)
  {
    if FromFetch(pointOps, steps, k, n) {
      var t, stored, reread, got :| LandedFrom(pointOps, steps, t, k, stored, reread, n, got);
      LandedStays(pointOps, steps, more, t, k, stored, reread, n, got);
    } else {
      var members :| WasListed(pointOps, steps, members) && k in members && n.body == members[k];
      ListedStays(pointOps, steps, more, members);
    }
  }

  lemma OutcomeStays(pointOps: set<string>, steps: seq<Step>, more: seq<Step>, o: Outcome)
    requires Extends(steps, more) && OutcomeFrom(pointOps, steps, o)
    ensures OutcomeFrom(pointOps, more, o)
  {
    var t :| OutcomeOfTask(pointOps, steps, o, t);
    match o {
      case NotModified(k, n, got) =>
        ReadStays(pointOps, steps, more, t, k, Some(n));
        var e :| WasGot(pointOps, steps, t, k, got, e);
        GotStays(pointOps, steps, more, t, k, got, e);
      case Landed(k, stored, reread, n, got) =>
        LandedStays(pointOps, steps, more, t, k, stored, reread, n, got);
        var j :| 0 <= j < |steps| && steps[j] == Write(t, true);
        assert more[j] == steps[j];
      case KeptStored(k, stored, reread, n, got) =>
        ReadStays(pointOps, steps, more, t, k, stored);
        var e :| WasGot(pointOps, steps, t, k, got, e);
        GotStays(pointOps, steps, more, t, k, got, e);
      case ServedStored(k, kept) =>
        ReadStays(pointOps, steps, more, t, k, kept);
        RefusedStays(steps, more, t);
      case StoreFailed(_) =>
        var j :| 0 <= j < |steps| && steps[j] == Write(t, false);
        assert more[j] == steps[j];
    }
    assert OutcomeOfTask(pointOps, more, o, t);
  }

  lemma RefusedStays(steps: seq<Step>, more: seq<Step>, t: nat)
    requires Extends(steps, more) && WasRefused(steps, t)
    ensures WasRefused(more, t)
  {
    var j :| 0 <= j < |steps| && steps[j].Get? && steps[j].task == t && !steps[j].answer.Object?;
    assert more[j] == steps[j];
  }

  // ---------------------------------------------------------------- every step keeps the history

  /** The task a step is of, if it is there. */
  ghost predicate OwnTaskFrom(pointOps: set<string>, steps: seq<Step>, s: Step, w: World) {
    !s.Mutate? && !s.Purge? && s.task in w.tasks ==> TaskFrom(pointOps, steps, s.task, w.tasks[s.task])
  }

  /** The last step of `more` is taken in `w`. */
  predicate OneMore(pointOps: set<string>, steps: seq<Step>, more: seq<Step>, s: Step, w: World) {
    more == steps + [s] && At(pointOps, more, |steps|) == w
  }

  lemma NewTask(pointOps: set<string>, steps: seq<Step>, more: seq<Step>, s: Step, w: World, w': World, t: nat)
    requires (t in w.tasks ==> TaskFrom(pointOps, steps, t, w.tasks[t])) && OwnTaskFrom(pointOps, steps, s, w)
    requires s.ListCached? && s.list in w.lists ==> WasListed(pointOps, steps, w.lists[s.list])
    requires OneMore(pointOps, steps, more, s, w) && w' == Next(w, pointOps, s) && t in w'.tasks
    ensures TaskFrom(pointOps, more, t, w'.tasks[t])
  {
    TasksChange(w, pointOps, s, t);
    if t in w.tasks && w'.tasks[t] == w.tasks[t] {
      TaskStays(pointOps, steps, more, t, w.tasks[t]);
    } else {
      ChangedTask(pointOps, steps, more, s, w, w');
    }
  }

  /** A step changes no task but its own. */
  lemma TasksChange(w: World, pointOps: set<string>, s: Step, t: nat)
    ensures var w' := Next(w, pointOps, s);
            t in w'.tasks && !(t in w.tasks && w'.tasks[t] == w.tasks[t]) ==> !s.Mutate? && !s.Purge? && s.task == t
  {}

  lemma NodesChange(w: World, pointOps: set<string>, s: Step, k: string)
    ensures var w' := Next(w, pointOps, s);
            k in w'.nodes && !(k in w.nodes && w'.nodes[k] == w.nodes[k]) ==>
              && (s.Write? || s.StoreMember?) && s.task in w.tasks
              && (s.Write? ==> w.tasks[s.task].Writing? && w.tasks[s.task].key == k && w'.nodes[k] == w.tasks[s.task].node)
              && (s.StoreMember? ==> w.tasks[s.task].Listing? && k in w.tasks[s.task].members &&
                                     w'.nodes[k].etag == None && w'.nodes[k].body == w.tasks[s.task].members[k])
  {}

  lemma ChangedTask(pointOps: set<string>, steps: seq<Step>, more: seq<Step>, s: Step, w: World, w': World)
    requires OwnTaskFrom(pointOps, steps, s, w) && OneMore(pointOps, steps, more, s, w) && w' == Next(w, pointOps, s)
    requires s.ListCached? && s.list in w.lists ==> WasListed(pointOps, steps, w.lists[s.list])
    requires !s.Mutate? && !s.Purge? && s.task in w'.tasks && (s.task in w.tasks ==> w'.tasks[s.task] != w.tasks[s.task])
    ensures TaskFrom(pointOps, more, s.task, w'.tasks[s.task])
  {
    match s
    case ReadRow(_, _) => NewRead(pointOps, steps, more, s, w, w');
    case Get(_, _) => NewAnswered(pointOps, steps, more, s, w, w');
    case Reread(_, _) => NewWriting(pointOps, steps, more, s, w, w');
    case ListUpstream(_, _) => NewListed(pointOps, steps, more, s, w, w');
    case ListCached(_, l) => ListedStays(pointOps, steps, more, w.lists[l]);
  }

  lemma NewRead(pointOps: set<string>, steps: seq<Step>, more: seq<Step>, s: Step, w: World, w': World)
    requires OneMore(pointOps, steps, more, s, w) && w' == Next(w, pointOps, s) && s.ReadRow? && s.task !in w.tasks
    ensures TaskFrom(pointOps, more, s.task, w'.tasks[s.task])
  {
    assert more[|steps|] == s;
    assert WasRead(pointOps, more, s.task, s.key, Lookup(w, s.key));
  }

  lemma NewListed(pointOps: set<string>, steps: seq<Step>, more: seq<Step>, s: Step, w: World, w': World)
    requires OneMore(pointOps, steps, more, s, w) && w' == Next(w, pointOps, s) && s.ListUpstream? && s.task !in w.tasks
    ensures TaskFrom(pointOps, more, s.task, w'.tasks[s.task])
  {
    assert more[|steps|] == s;
    assert WasListed(pointOps, more, Snapshot(w, s.keys));
  }

  lemma NewAnswered(pointOps: set<string>, steps: seq<Step>, more: seq<Step>, s: Step, w: World, w': World)
    requires OwnTaskFrom(pointOps, steps, s, w)
    requires OneMore(pointOps, steps, more, s, w) && w' == Next(w, pointOps, s) && s.Get?
    ensures s.task in w'.tasks ==> TaskFrom(pointOps, more, s.task, w'.tasks[s.task])
  {
    assert Extends(steps, more) && more[|steps|] == s;
    if s.task in w.tasks {
      TaskStays(pointOps, steps, more, s.task, w.tasks[s.task]);
      if w.tasks[s.task].Reading? && s.task in w'.tasks {
        var Answered(k, stored, etag, got) := w'.tasks[s.task];
        assert WasGot(pointOps, more, s.task, k, got, etag);
      }
    }
  }

  lemma NewWriting(pointOps: set<string>, steps: seq<Step>, more: seq<Step>, s: Step, w: World, w': World)
    requires OwnTaskFrom(pointOps, steps, s, w)
    requires OneMore(pointOps, steps, more, s, w) && w' == Next(w, pointOps, s) && s.Reread?
    ensures s.task in w'.tasks ==> TaskFrom(pointOps, more, s.task, w'.tasks[s.task])
  {
    assert Extends(steps, more) && more[|steps|] == s;
    if s.task in w.tasks {
      TaskStays(pointOps, steps, more, s.task, w.tasks[s.task]);
      if w.tasks[s.task].Answered? && s.task in w'.tasks {
        var Writing(k, stored, reread, n, got) := w'.tasks[s.task];
        if reread {
          assert WasReread(pointOps, more, s.task, k, n.body);
        }
      }
    }
  }

  lemma NewNode(pointOps: set<string>, steps: seq<Step>, more: seq<Step>, s: Step, w: World, w': World, k: string)
    requires (k in w.nodes ==> NodeFrom(pointOps, steps, k, w.nodes[k])) && OwnTaskFrom(pointOps, steps, s, w)
    requires OneMore(pointOps, steps, more, s, w) && w' == Next(w, pointOps, s) && k in w'.nodes
    ensures NodeFrom(pointOps, more, k, w'.nodes[k])
  {
    assert Extends(steps, more) && more[|steps|] == s;
    NodesChange(w, pointOps, s, k);
    if k in w.nodes && w'.nodes[k] == w.nodes[k] {
      NodeStays(pointOps, steps, more, k, w.nodes[k]);
    } else if s.Write? {
      var Writing(_, stored, reread, n, got) := w.tasks[s.task];
      LandedStays(pointOps, steps, more, s.task, k, stored, reread, n, got);
    } else {
      ListedStays(pointOps, steps, more, w.tasks[s.task].members);
    }
  }

  lemma LogHistory(pointOps: set<string>, steps: seq<Step>, more: seq<Step>, before: seq<Outcome>, after: seq<Outcome>)
    requires Extends(steps, more) && before <= after && |after| <= |before| + 1
    requires forall i :: 0 <= i < |before| ==> OutcomeFrom(pointOps, steps, before[i])
    requires |after| > |before| ==> OutcomeFrom(pointOps, more, after[|before|])
    ensures forall i :: 0 <= i < |after| ==> OutcomeFrom(pointOps, more, after[i])
  {
    forall i | 0 <= i < |after| ensures OutcomeFrom(pointOps, more, after[i]) {
      if i < |before| {
        OutcomeStays(pointOps, steps, more, before[i]);
      }
    }
  }

  lemma LastOutcome(pointOps: set<string>, steps: seq<Step>, more: seq<Step>, s: Step, w: World, w': World)
    requires OwnTaskFrom(pointOps, steps, s, w) && OneMore(pointOps, steps, more, s, w) && w' == Next(w, pointOps, s)
    requires |w'.log| > |w.log| && (s.Get? || s.Reread? || s.Write?)
    ensures OutcomeFrom(pointOps, more, w'.log[|w.log|])
  {
    match s
    case Get(_, _) => GetOutcome(pointOps, steps, more, s, w, w');
    case Reread(_, _) => KeptOutcome(pointOps, steps, more, s, w, w');
    case Write(_, _) => WriteOutcome(pointOps, steps, more, s, w, w');
  }

  lemma LogGrows(w: World, pointOps: set<string>, s: Step)
    ensures var w' := Next(w, pointOps, s);
            && w.log <= w'.log && |w'.log| <= |w.log| + 1
            && (w'.log != w.log ==> (s.Get? || s.Reread? || s.Write?) && s.task in w.tasks)
  {}

  lemma GetOutcome(pointOps: set<string>, steps: seq<Step>, more: seq<Step>, s: Step, w: World, w': World)
    requires OwnTaskFrom(pointOps, steps, s, w)
    requires OneMore(pointOps, steps, more, s, w) && w' == Next(w, pointOps, s) && s.Get?
    requires |w'.log| > |w.log|
    ensures OutcomeFrom(pointOps, more, w'.log[|w.log|])
  {
    assert Extends(steps, more) && more[|steps|] == s;
    var Reading(k, stored) := w.tasks[s.task];
    TaskStays(pointOps, steps, more, s.task, w.tasks[s.task]);
    var o := w'.log[|w.log|];
    if s.answer.Object? {
      assert WasGot(pointOps, more, s.task, k, Version(w, k), if s.answer.tagged then Some(Version(w, k)) else None);
    } else {
      assert WasRefused(more, s.task);
    }
    assert OutcomeOfTask(pointOps, more, o, s.task);
  }

  lemma KeptOutcome(pointOps: set<string>, steps: seq<Step>, more: seq<Step>, s: Step, w: World, w': World)
    requires OwnTaskFrom(pointOps, steps, s, w)
    requires OneMore(pointOps, steps, more, s, w) && w' == Next(w, pointOps, s) && s.Reread?
    requires |w'.log| > |w.log|
    ensures OutcomeFrom(pointOps, more, w'.log[|w.log|])
  {
    assert Extends(steps, more) && more[|steps|] == s;
    TaskStays(pointOps, steps, more, s.task, w.tasks[s.task]);
    assert OutcomeOfTask(pointOps, more, w'.log[|w.log|], s.task);
  }

  lemma WriteOutcome(pointOps: set<string>, steps: seq<Step>, more: seq<Step>, s: Step, w: World, w': World)
    requires OwnTaskFrom(pointOps, steps, s, w)
    requires OneMore(pointOps, steps, more, s, w) && w' == Next(w, pointOps, s) && s.Write?
    requires |w'.log| > |w.log|
    ensures OutcomeFrom(pointOps, more, w'.log[|w.log|])
  {
    assert Extends(steps, more) && more[|steps|] == s;
    TaskStays(pointOps, steps, more, s.task, w.tasks[s.task]);
    assert OutcomeOfTask(pointOps, more, w'.log[|w.log|], s.task);
  }

  lemma NewList(pointOps: set<string>, steps: seq<Step>, more: seq<Step>, s: Step, w: World, w': World, l: string)
    requires (l in w.lists ==> WasListed(pointOps, steps, w.lists[l])) && OwnTaskFrom(pointOps, steps, s, w)
    requires OneMore(pointOps, steps, more, s, w) && w' == Next(w, pointOps, s) && l in w'.lists
    ensures WasListed(pointOps, more, w'.lists[l])
  {
    assert Extends(steps, more) && more[|steps|] == s;
    if l in w.lists && w'.lists[l] == w.lists[l] {
      ListedStays(pointOps, steps, more, w.lists[l]);
    } else {
      ListedStays(pointOps, steps, more, w.tasks[s.task].members);
    }
  }

  /**
   * In every run of any number of interleaved tasks: every row came from a fetch, with the ETag its GET had and
   * naming the version of that GET, or from a list, with none; and every finished fetch handed back what it says.
   */
  lemma {:induction false} RunHistory(pointOps: set<string>, steps: seq<Step>)
    ensures History(pointOps, steps, Run(pointOps, steps))
    decreases steps
  {
    if steps != [] {
      var init, s := steps[..|steps| - 1], steps[|steps| - 1];
      RunHistory(pointOps, init);
      assert steps == init + [s] && steps[..|init|] == init;
      StepHistory(pointOps, init, steps, s, Run(pointOps, init), Run(pointOps, steps));
    }
  }

  lemma StepHistory(pointOps: set<string>, steps: seq<Step>, more: seq<Step>, s: Step, w: World, w': World)
    requires History(pointOps, steps, w) && OneMore(pointOps, steps, more, s, w) && w' == Next(w, pointOps, s)
    ensures History(pointOps, more, w')
  {
    forall t | t in w'.tasks ensures TaskFrom(pointOps, more, t, w'.tasks[t]) { NewTask(pointOps, steps, more, s, w, w', t); }
    forall k | k in w'.nodes ensures NodeFrom(pointOps, more, k, w'.nodes[k]) { NewNode(pointOps, steps, more, s, w, w', k); }
    forall l | l in w'.lists ensures WasListed(pointOps, more, w'.lists[l]) { NewList(pointOps, steps, more, s, w, w', l); }
    LogGrows(w, pointOps, s);
    if |w'.log| > |w.log| {
      LastOutcome(pointOps, steps, more, s, w, w');
    }
    LogHistory(pointOps, steps, more, w.log, w'.log);
  }

  /** A landed 200, in every run: its ETag is there exactly when its GET was tagged, and then it names the version of that GET. */
  lemma LandedTag(pointOps: set<string>, steps: seq<Step>, i: nat)
    requires i < |Run(pointOps, steps).log| && Run(pointOps, steps).log[i].Landed?
    ensures var o := Run(pointOps, steps).log[i];
            exists j :: 0 <= j < |steps| && steps[j].Get? && steps[j].answer.Object?
                        && o.got == Version(At(pointOps, steps, j), o.key)
                        && o.returned.etag == if steps[j].answer.tagged then Some(o.got) else None
  {
    RunHistory(pointOps, steps);
    var o := Run(pointOps, steps).log[i];
    assert OutcomeFrom(pointOps, steps, o);
    var t :| OutcomeOfTask(pointOps, steps, o, t);
    assert WasGot(pointOps, steps, t, o.key, o.got, o.returned.etag);
  }

  // ---------------------------------------------------------------- what the tables hold

  function ListAt(w: World, l: string): Option<map<string, nat>> { if l in w.lists then Some(w.lists[l]) else None }

  /** What a step writes of a row: a landing, a member of a list, or a purge; any other step leaves it. */
  function NodeWritten(w: World, s: Step, before: Option<Node>, k: string): Option<Node> {
    match s
    case Write(t, ok) => if ok && t in w.tasks && w.tasks[t].Writing? && w.tasks[t].key == k then Some(w.tasks[t].node) else before
    case StoreMember(t, key, shape) =>
      if key == k && t in w.tasks && w.tasks[t].Listing? && k in w.tasks[t].members
      then Some(Node(None, w.tasks[t].members[k], shape)) else before
    case Purge(key, _) => if key == k then None else before
    case _ => before
  }

  function ListWritten(w: World, s: Step, before: Option<map<string, nat>>, l: string): Option<map<string, nat>> {
    match s
    case PutList(t, list) => if list == l && t in w.tasks && w.tasks[t].Listing? then Some(w.tasks[t].members) else before
    case Purge(_, evicted) => if l in evicted then None else before
    case _ => before
  }

  /** The row last written for a key since it was last purged. */
  function LastNode(pointOps: set<string>, steps: seq<Step>, k: string): Option<Node> {
    if steps == [] then None
    else
      var init := steps[..|steps| - 1];
      NodeWritten(Run(pointOps, init), steps[|steps| - 1], LastNode(pointOps, init, k), k)
  }

  /** The members last put under a list since it was last evicted. */
  function LastList(pointOps: set<string>, steps: seq<Step>, l: string): Option<map<string, nat>> {
    if steps == [] then None
    else
      var init := steps[..|steps| - 1];
      ListWritten(Run(pointOps, init), steps[|steps| - 1], LastList(pointOps, init, l), l)
  }

  lemma StepWrites(w: World, pointOps: set<string>, s: Step, k: string, l: string)
    ensures Lookup(Next(w, pointOps, s), k) == NodeWritten(w, s, Lookup(w, k), k)
    ensures ListAt(Next(w, pointOps, s), l) == ListWritten(w, s, ListAt(w, l), l)
  {}

  /** In every run, each row and each list are those last written and not purged since; no other step touches either. */
  lemma {:induction false} TablesExactly(pointOps: set<string>, steps: seq<Step>, k: string, l: string)
    ensures Lookup(Run(pointOps, steps), k) == LastNode(pointOps, steps, k)
    ensures ListAt(Run(pointOps, steps), l) == LastList(pointOps, steps, l)
    decreases steps
  {
    if steps != [] {
      var init := steps[..|steps| - 1];
      TablesExactly(pointOps, init, k, l);
      StepWrites(Run(pointOps, init), pointOps, steps[|steps| - 1], k, l);
    }
  }

  // ---------------------------------------------------------------- the second fetch

  /** Upstream changes these objects, one version each time. */
  function Mutated(w: World, pointOps: set<string>, ks: seq<string>): World {
    if ks == [] then w else Next(Mutated(w, pointOps, ks[..|ks| - 1]), pointOps, Mutate(ks[|ks| - 1]))
  }

  lemma {:induction false} MutatedOnly(w: World, pointOps: set<string>, ks: seq<string>, k: string)
    ensures var m := Mutated(w, pointOps, ks);
            && m.nodes == w.nodes && m.tasks == w.tasks && m.log == w.log && m.lists == w.lists
            && Version(m, k) >= Version(w, k) && (Version(m, k) == Version(w, k) <==> k !in ks)
  {
    if ks != [] {
      var n := |ks| - 1;
      MutatedOnly(w, pointOps, ks[..n], k);
      assert ks == ks[..n] + [ks[n]];
    }
  }

  /** The fetch gets a 304. */
  predicate Hits(w: World, pointOps: set<string>, t: nat, k: string, tagged: bool, rereadOk: bool) {
    var log := Alone(w, pointOps, t, k, tagged, rereadOk).log;
    |log| == |w.log| + 1 && log[|w.log|].NotModified?
  }

  lemma HitsExactly(w: World, pointOps: set<string>, t: nat, k: string, tagged: bool, rereadOk: bool)
    requires t !in w.tasks
    ensures Hits(w, pointOps, t, k, tagged, rereadOk) <==> k in w.nodes && w.nodes[k].etag == Some(Version(w, k))
  {
    AloneEffect(w, pointOps, t, k, tagged, rereadOk);
  }

  /** A fetch that hands back what it had: its re-read failed, and the store held the canonical shape of another version. */
  predicate KeepsOld(w: World, pointOps: set<string>, k: string, rereadOk: bool) {
    && !rereadOk && k in pointOps && k in w.nodes && w.nodes[k].shape == Graph && w.nodes[k].etag != Some(Version(w, k))
  }

  /**
   * From any state a run can reach, a fetch whose answer has an ETag and a second fetch of the same object, with any
   * changes upstream between them and nothing else: the second gets a 304 if and only if none of the changes was
   * to that object and the first did not keep an old body.
   */
  lemma SecondFetch(pointOps: set<string>, steps: seq<Step>, t: nat, k: string, rereadOk: bool, ks: seq<string>,
                    t2: nat, tagged2: bool, reread2: bool)
    requires t !in Run(pointOps, steps).tasks && t2 !in Run(pointOps, steps).tasks
    ensures var w := Run(pointOps, steps);
            var w1 := Alone(w, pointOps, t, k, true, rereadOk);
            Hits(Mutated(w1, pointOps, ks), pointOps, t2, k, tagged2, reread2) <==> k !in ks && !KeepsOld(w, pointOps, k, rereadOk)
  {
    var w := Run(pointOps, steps);
    var w1 := Alone(w, pointOps, t, k, true, rereadOk);
    AloneEffect(w, pointOps, t, k, true, rereadOk);
    MutatedOnly(w1, pointOps, ks, k);
    HitsExactly(Mutated(w1, pointOps, ks), pointOps, t2, k, tagged2, reread2);
    if k in w.nodes {
      StoredNeverAhead(pointOps, steps, k);
    }
  }

  /** A run that reaches a 304: the same object fetched twice. */
  lemma TwiceFetched(k: string, steps: seq<Step>)
    requires steps == [ReadRow(0, k), Get(0, Object(true)), Reread(0, false), Write(0, true), ReadRow(1, k), Get(1, Object(true))]
    ensures var log := Run({}, steps).log;
            |log| == 2 && log[1] == NotModified(k, Node(Some(0), 0, Rest), 0)
  {
    FirstFetch(k, steps[..4]);
    var w := Run({}, steps[..4]);
    RunPrefix({}, steps, 5);
    RunPrefix({}, steps, 6);
    assert steps[..5][..4] == steps[..4] && steps[..6] == steps;
  }

  lemma FirstFetch(k: string, four: seq<Step>)
    requires four == [ReadRow(0, k), Get(0, Object(true)), Reread(0, false), Write(0, true)]
    ensures var w := Run({}, four);
            w.nodes == map[k := Node(Some(0), 0, Rest)] && w.tasks == map[] && |w.log| == 1 && w.upstream == map[]
  {
    assert four == [] + four;
    RunThreeMore({}, four[..1], four[1], four[2], four[3]);
    assert four == four[..1] + [four[1], four[2], four[3]];
    RunPrefix({}, four, 1);
    assert four[..0] == [];
    AloneEffect(START, {}, 0, k, true, false);
  }
}
