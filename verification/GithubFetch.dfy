/**
 * The conditional fetch of plugins/github/proxy.go as an interleaving of any number of tasks,
 * against an upstream whose versions only grow (sections 13.1.2 and 15.4.5 of RFC 9110).
 */
module GithubFetch {
  import opened Options

  // ---------------------------------------------------------------- state

  /** The flat REST projection, or the canonical GraphQL shape. */
  datatype Shape = Rest | Graph

  /** A cached object: the version its ETag names (None for an empty ETag), the version of its body, and its shape. */
  datatype Node = Node(etag: Option<nat>, body: nat, shape: Shape)

  /** Where a task stands between two of its atomic actions. */
  datatype Task =
    | Reading(key: string, stored: Option<Node>)                              // the row was read; the GET is next
    | Answered(key: string, stored: Option<Node>, etag: Option<nat>, got: nat) // a 200 arrived with body version `got`
    | Writing(key: string, stored: Option<Node>, reread: bool, node: Node, got: nat) // the body to land is chosen
    | Listing(members: map<string, nat>)                                      // list data in hand, from upstream or cache

  /**
   * How a fetch ended; `got` is upstream's version at the moment of the GET. A 200 also says what the
   * task had read from the store before it, and whether its canonical re-read succeeded.
   */
  datatype Outcome =
    | NotModified(key: string, returned: Node, got: nat)
    | Landed(key: string, stored: Option<Node>, reread: bool, returned: Node, got: nat)
    | KeptStored(key: string, stored: Option<Node>, reread: bool, returned: Node, got: nat)
    | ServedStored(key: string, kept: Option<Node>)
    | StoreFailed(key: string)

  datatype World = World(
    upstream: map<string, nat>, nodes: map<string, Node>, lists: map<string, map<string, nat>>,
    tasks: map<nat, Task>, log: seq<Outcome>)

  function Version(w: World, k: string): nat {
    if k in w.upstream then w.upstream[k] else 0
  }

  function Lookup(w: World, k: string): Option<Node> {
    if k in w.nodes then Some(w.nodes[k]) else None
  }

  /** What a list query returns for these objects right now. */
  function Snapshot(w: World, keys: set<string>): map<string, nat> {
    map k | k in keys :: Version(w, k)
  }

  // ---------------------------------------------------------------- steps

  /** What comes back for a GET: nothing, an error status, or the object with or without an ETag header. */
  datatype Answer = Lost | ErrorStatus | Object(tagged: bool)

  datatype Step =
    | Mutate(key: string)
    | ReadRow(task: nat, key: string)
    | Get(task: nat, answer: Answer)
    | Reread(task: nat, ok: bool)
    | Write(task: nat, ok: bool)
    | ListUpstream(task: nat, keys: set<string>)
    | ListCached(task: nat, list: string)
    | StoreMember(task: nat, key: string, shape: Shape)
    | PutList(task: nat, list: string)
    | Purge(key: string, evicted: set<string>)

  function End(w: World, t: nat, o: Outcome): World {
    w.(tasks := w.tasks - {t}, log := w.log + [o])
  }

  /** `pointOps` holds the keys whose kind has a GraphQL point op (issues and pull requests). */
  function Next(w: World, pointOps: set<string>, s: Step): World {
    match s
    case Mutate(k) => w.(upstream := w.upstream[k := Version(w, k) + 1])
    case ReadRow(t, k) => if t in w.tasks then w else w.(tasks := w.tasks[t := Reading(k, Lookup(w, k))])
    case Get(t, answer) => if t in w.tasks && w.tasks[t].Reading? then AfterGet(w, t, answer) else w
    case Reread(t, ok) => if t in w.tasks && w.tasks[t].Answered? then AfterReread(w, pointOps, t, ok) else w
    case Write(t, ok) => if t in w.tasks && w.tasks[t].Writing? then AfterWrite(w, t, ok) else w
    case ListUpstream(t, keys) =>
      if t in w.tasks then w else w.(tasks := w.tasks[t := Listing(Snapshot(w, keys))])
    case ListCached(t, l) =>
      if t in w.tasks || l !in w.lists then w else w.(tasks := w.tasks[t := Listing(w.lists[l])])
    case StoreMember(t, k, shape) =>
      // A list whose query does not ask for updatedAt stores members that do not look canonical.
      if t in w.tasks && w.tasks[t].Listing? && k in w.tasks[t].members
      then w.(nodes := w.nodes[k := Node(None, w.tasks[t].members[k], shape)]) else w
    case PutList(t, l) =>
      if t in w.tasks && w.tasks[t].Listing?
      then w.(lists := w.lists[l := w.tasks[t].members], tasks := w.tasks - {t}) else w
    case Purge(k, evicted) => w.(nodes := w.nodes - {k}, lists := w.lists - evicted)
  }

  /** The server answers 304 exactly when the If-None-Match it was sent names its current version. */
  function AfterGet(w: World, t: nat, answer: Answer): World
    requires t in w.tasks && w.tasks[t].Reading?
  {
    var Reading(k, stored) := w.tasks[t];
    match answer
    case Lost => End(w, t, ServedStored(k, stored))
    case ErrorStatus => End(w, t, ServedStored(k, stored))
    case Object(tagged) =>
      if stored.Some? && stored.value.etag == Some(Version(w, k))
      then End(w, t, NotModified(k, stored.value, Version(w, k)))
      else w.(tasks := w.tasks[t := Answered(k, stored, if tagged then Some(Version(w, k)) else None, Version(w, k))])
  }

  /** The canonical re-read, or what is kept when it fails. */
  function AfterReread(w: World, pointOps: set<string>, t: nat, ok: bool): World
    requires t in w.tasks && w.tasks[t].Answered?
  {
    var Answered(k, stored, etag, got) := w.tasks[t];
    if ok && k in pointOps then w.(tasks := w.tasks[t := Writing(k, stored, true, Node(etag, Version(w, k), Graph), got)])
    else if stored.Some? && k in pointOps && stored.value.shape == Graph then End(w, t, KeptStored(k, stored, false, stored.value, got))
    else w.(tasks := w.tasks[t := Writing(k, stored, false, Node(etag, got, Rest), got)])
  }

  function AfterWrite(w: World, t: nat, ok: bool): World
    requires t in w.tasks && w.tasks[t].Writing?
  {
    var Writing(k, stored, reread, node, got) := w.tasks[t];
    if ok then End(w.(nodes := w.nodes[k := node]), t, Landed(k, stored, reread, node, got)) else End(w, t, StoreFailed(k))
  }

  const START := World(map[], map[], map[], map[], [])

  function Run(pointOps: set<string>, steps: seq<Step>): World {
    if steps == [] then START else Next(Run(pointOps, steps[..|steps| - 1]), pointOps, steps[|steps| - 1])
  }

  // ---------------------------------------------------------------- the invariant

  /** ETag version <= body version <= upstream version. */
  predicate Ordered(w: World, k: string, n: Node) {
    n.body <= Version(w, k) && (n.etag.Some? ==> n.etag.value <= n.body)
  }

  /** The canonical re-read failed and the store held a canonical body: the one case in which it is kept. */
  predicate Keeps(pointOps: set<string>, k: string, stored: Option<Node>, reread: bool) {
    !reread && k in pointOps && stored.Some? && stored.value.shape == Graph
  }

  predicate TaskOk(w: World, pointOps: set<string>, task: Task) {
    match task
    case Reading(k, stored) => stored.Some? ==> Ordered(w, k, stored.value)
    case Answered(k, stored, etag, got) =>
      && (stored.Some? ==> Ordered(w, k, stored.value) && stored.value.body <= got)
      && got <= Version(w, k) && (etag.Some? ==> etag.value == got)
    case Writing(k, stored, reread, node, got) =>
      Ordered(w, k, node) && got <= node.body && (node.etag.Some? ==> node.etag.value == got) && !Keeps(pointOps, k, stored, reread)
    case Listing(members) => forall k :: k in members ==> members[k] <= Version(w, k)
  }

  predicate OutcomeOk(pointOps: set<string>, o: Outcome) {
    match o
    case NotModified(_, n, got) => n.body == got
    case Landed(k, stored, reread, n, got) =>
      got <= n.body && (n.etag.Some? ==> n.etag.value == got) && !Keeps(pointOps, k, stored, reread)
    case KeptStored(k, stored, reread, n, got) => n.body <= got && stored == Some(n) && Keeps(pointOps, k, stored, reread)
    case _ => true
  }

  predicate Consistent(w: World, pointOps: set<string>) {
    && (forall k :: k in w.nodes ==> Ordered(w, k, w.nodes[k]))
    && (forall t :: t in w.tasks ==> TaskOk(w, pointOps, w.tasks[t]))
    && (forall l :: l in w.lists ==> forall k :: k in w.lists[l] ==> w.lists[l][k] <= Version(w, k))
    && (forall i :: 0 <= i < |w.log| ==> OutcomeOk(pointOps, w.log[i]))
  }

  lemma MutateKeeps(pointOps: set<string>, w: World, k: string)
    requires Consistent(w, pointOps)
    ensures Consistent(w.(upstream := w.upstream[k := Version(w, k) + 1]), pointOps)
  {
    var w' := w.(upstream := w.upstream[k := Version(w, k) + 1]);
    assert forall j :: Version(w, j) <= Version(w', j);
    forall t | t in w'.tasks ensures TaskOk(w', pointOps, w'.tasks[t]) {
      assert TaskOk(w, pointOps, w.tasks[t]);
    }
  }

  /** A step that leaves upstream alone and puts one task in a good place. */
  lemma PutTaskKeeps(pointOps: set<string>, w: World, t: nat, task: Task)
    requires Consistent(w, pointOps) && TaskOk(w, pointOps, task)
    ensures Consistent(w.(tasks := w.tasks[t := task]), pointOps)
  {
    var w' := w.(tasks := w.tasks[t := task]);
    assert forall k :: Version(w, k) == Version(w', k);
    forall u | u in w'.tasks ensures TaskOk(w', pointOps, w'.tasks[u]) {
      assert u != t ==> TaskOk(w, pointOps, w.tasks[u]);
    }
  }

  lemma EndKeeps(pointOps: set<string>, w: World, t: nat, o: Outcome)
    requires Consistent(w, pointOps) && OutcomeOk(pointOps, o)
    ensures Consistent(End(w, t, o), pointOps)
  {
    var w' := End(w, t, o);
    assert forall k :: Version(w, k) == Version(w', k);
    forall u | u in w'.tasks ensures TaskOk(w', pointOps, w'.tasks[u]) {
      assert TaskOk(w, pointOps, w.tasks[u]);
    }
  }

  /** Changing only the two tables, to entries that are in order, keeps the rest. */
  lemma TablesKeep(pointOps: set<string>, w: World, w': World)
    requires Consistent(w, pointOps)
    requires w'.upstream == w.upstream && w'.log == w.log
    requires forall t :: t in w'.tasks ==> t in w.tasks && w'.tasks[t] == w.tasks[t]
    requires forall k :: k in w'.nodes ==> Ordered(w, k, w'.nodes[k])
    requires forall l :: l in w'.lists ==> forall k :: k in w'.lists[l] ==> w'.lists[l][k] <= Version(w, k)
    ensures Consistent(w', pointOps)
  {
    assert forall k :: Version(w, k) == Version(w', k);
    forall u | u in w'.tasks ensures TaskOk(w', pointOps, w'.tasks[u]) {
      assert TaskOk(w, pointOps, w.tasks[u]);
    }
  }

  lemma GetKeeps(pointOps: set<string>, w: World, t: nat, answer: Answer)
    requires Consistent(w, pointOps) && t in w.tasks && w.tasks[t].Reading?
    ensures Consistent(AfterGet(w, t, answer), pointOps)
  {
    assert TaskOk(w, pointOps, w.tasks[t]);
    var Reading(k, stored) := w.tasks[t];
    var v := Version(w, k);
    match answer
    case Object(tagged) =>
      if stored.Some? && stored.value.etag == Some(v) {
        EndKeeps(pointOps, w, t, NotModified(k, stored.value, v));
      } else {
        PutTaskKeeps(pointOps, w, t, Answered(k, stored, if tagged then Some(v) else None, v));
      }
    case _ => EndKeeps(pointOps, w, t, ServedStored(k, stored));
  }

  lemma RereadKeeps(w: World, pointOps: set<string>, t: nat, ok: bool)
    requires Consistent(w, pointOps) && t in w.tasks && w.tasks[t].Answered?
    ensures Consistent(AfterReread(w, pointOps, t, ok), pointOps)
  {
    assert TaskOk(w, pointOps, w.tasks[t]);
    var Answered(k, stored, etag, got) := w.tasks[t];
    if ok && k in pointOps {
      PutTaskKeeps(pointOps, w, t, Writing(k, stored, true, Node(etag, Version(w, k), Graph), got));
    } else if stored.Some? && k in pointOps && stored.value.shape == Graph {
      EndKeeps(pointOps, w, t, KeptStored(k, stored, false, stored.value, got));
    } else {
      PutTaskKeeps(pointOps, w, t, Writing(k, stored, false, Node(etag, got, Rest), got));
    }
  }

  lemma WriteKeeps(pointOps: set<string>, w: World, t: nat, ok: bool)
    requires Consistent(w, pointOps) && t in w.tasks && w.tasks[t].Writing?
    ensures Consistent(AfterWrite(w, t, ok), pointOps)
  {
    assert TaskOk(w, pointOps, w.tasks[t]);
    var Writing(k, stored, reread, node, got) := w.tasks[t];
    if ok {
      TablesKeep(pointOps, w, w.(nodes := w.nodes[k := node]));
      EndKeeps(pointOps, w.(nodes := w.nodes[k := node]), t, Landed(k, stored, reread, node, got));
    } else {
      EndKeeps(pointOps, w, t, StoreFailed(k));
    }
  }

  lemma StoreMemberKeeps(pointOps: set<string>, w: World, t: nat, k: string, shape: Shape)
    requires Consistent(w, pointOps) && t in w.tasks && w.tasks[t].Listing? && k in w.tasks[t].members
    ensures Consistent(w.(nodes := w.nodes[k := Node(None, w.tasks[t].members[k], shape)]), pointOps)
  {
    assert TaskOk(w, pointOps, w.tasks[t]);
    TablesKeep(pointOps, w, w.(nodes := w.nodes[k := Node(None, w.tasks[t].members[k], shape)]));
  }

  lemma PutListKeeps(pointOps: set<string>, w: World, t: nat, l: string)
    requires Consistent(w, pointOps) && t in w.tasks && w.tasks[t].Listing?
    ensures Consistent(w.(lists := w.lists[l := w.tasks[t].members], tasks := w.tasks - {t}), pointOps)
  {
    assert TaskOk(w, pointOps, w.tasks[t]);
    TablesKeep(pointOps, w, w.(lists := w.lists[l := w.tasks[t].members], tasks := w.tasks - {t}));
  }

  lemma ListStepKeeps(w: World, pointOps: set<string>, s: Step)
    requires Consistent(w, pointOps)
    requires s.ListUpstream? || s.ListCached? || s.StoreMember? || s.PutList? || s.Purge?
    ensures Consistent(Next(w, pointOps, s), pointOps)
  {
    match s
    case ListUpstream(t, keys) => PutTaskKeeps(pointOps, w, t, Listing(Snapshot(w, keys)));
    case ListCached(t, l) => if l in w.lists { PutTaskKeeps(pointOps, w, t, Listing(w.lists[l])); }
    case StoreMember(t, k, shape) =>
      if t in w.tasks && w.tasks[t].Listing? && k in w.tasks[t].members {
        StoreMemberKeeps(pointOps, w, t, k, shape);
      }
    case PutList(t, l) => if t in w.tasks && w.tasks[t].Listing? { PutListKeeps(pointOps, w, t, l); }
    case Purge(k, evicted) => TablesKeep(pointOps, w, w.(nodes := w.nodes - {k}, lists := w.lists - evicted));
  }

  /** Every atomic action of every task, and every change upstream, keeps the invariant. */
  lemma StepKeeps(w: World, pointOps: set<string>, s: Step)
    requires Consistent(w, pointOps)
    ensures Consistent(Next(w, pointOps, s), pointOps)
  {
    match s
    case Mutate(k) => MutateKeeps(pointOps, w, k);
    case ReadRow(t, k) => PutTaskKeeps(pointOps, w, t, Reading(k, Lookup(w, k)));
    case Get(t, answer) => if t in w.tasks && w.tasks[t].Reading? { GetKeeps(pointOps, w, t, answer); }
    case Reread(t, ok) => if t in w.tasks && w.tasks[t].Answered? { RereadKeeps(w, pointOps, t, ok); }
    case Write(t, ok) => if t in w.tasks && w.tasks[t].Writing? { WriteKeeps(pointOps, w, t, ok); }
    case _ => ListStepKeeps(w, pointOps, s);
  }

  lemma {:induction false} RunConsistent(pointOps: set<string>, steps: seq<Step>)
    ensures Consistent(Run(pointOps, steps), pointOps)
  {
    if steps != [] {
      RunConsistent(pointOps, steps[..|steps| - 1]);
      StepKeeps(Run(pointOps, steps[..|steps| - 1]), pointOps, steps[|steps| - 1]);
    }
  }

  // ---------------------------------------------------------------- the theorems

  /** Every stored node, in every reachable state: no ETag, or ETag version <= body version <= upstream version. */
  lemma StoredNeverAhead(pointOps: set<string>, steps: seq<Step>, k: string)
    requires k in Run(pointOps, steps).nodes
    ensures var w := Run(pointOps, steps);
            var n := w.nodes[k];
            n.body <= Version(w, k) && (n.etag.None? || n.etag.value <= n.body)
  {
    RunConsistent(pointOps, steps);
    assert Ordered(Run(pointOps, steps), k, Run(pointOps, steps).nodes[k]);
  }

  /**
   * A 304 always returned the body upstream had at the GET; a landed 200 is never older than its GET, and a
   * kept one never newer.
   */
  lemma RevalidationSound(pointOps: set<string>, steps: seq<Step>, i: nat)
    requires i < |Run(pointOps, steps).log|
    ensures var o := Run(pointOps, steps).log[i];
            && (o.NotModified? ==> o.returned.body == o.got)
            && (o.Landed? ==> o.got <= o.returned.body)
            && (o.KeptStored? ==> o.stored == Some(o.returned) && o.returned.body <= o.got)
  {
    RunConsistent(pointOps, steps);
    assert OutcomeOk(pointOps, Run(pointOps, steps).log[i]);
  }

  /**
   * When a 200 hands back a body older than its GET, in every run and under every interleaving: exactly
   * when its canonical re-read failed, the key has a point op, and what the task had read from the store
   * was the canonical shape of another version.
   */
  lemma OlderThanGetExactly(pointOps: set<string>, steps: seq<Step>, i: nat)
    requires i < |Run(pointOps, steps).log|
    requires Run(pointOps, steps).log[i].Landed? || Run(pointOps, steps).log[i].KeptStored?
    ensures var o := Run(pointOps, steps).log[i];
            o.returned.body < o.got <==> Keeps(pointOps, o.key, o.stored, o.reread) && o.stored.value.body != o.got
  {
    RunConsistent(pointOps, steps);
    assert OutcomeOk(pointOps, Run(pointOps, steps).log[i]);
  }

  /** One fetch of `k`, its four actions with nothing in between. */
  function Alone(w: World, pointOps: set<string>, t: nat, k: string, tagged: bool, rereadOk: bool): World {
    var read := Next(w, pointOps, ReadRow(t, k));
    var answered := Next(read, pointOps, Get(t, Object(tagged)));
    Next(Next(answered, pointOps, Reread(t, rereadOk)), pointOps, Write(t, true))
  }

  /** The body an undisturbed fetch lands, its ETag the answered one: canonical when re-read, else as the GET gave it. */
  function Fresh(v: nat, tagged: bool, reread: bool): Node {
    Node(if tagged then Some(v) else None, v, if reread then Graph else Rest)
  }

  /**
   * What an undisturbed fetch leaves: a 304 or a kept body changes no row; otherwise the row is upstream's
   * version, with an ETag naming it exactly when the answer had one. Nothing else in the world changes.
   */
  lemma AloneEffect(w: World, pointOps: set<string>, t: nat, k: string, tagged: bool, rereadOk: bool)
    requires t !in w.tasks
    ensures var stored, v, reread := Lookup(w, k), Version(w, k), rereadOk && k in pointOps;
            var w' := Alone(w, pointOps, t, k, tagged, rereadOk);
            if stored.Some? && stored.value.etag == Some(v) then w' == w.(log := w.log + [NotModified(k, stored.value, v)])
            else if Keeps(pointOps, k, stored, rereadOk) then w' == w.(log := w.log + [KeptStored(k, stored, false, stored.value, v)])
            else w' == w.(nodes := w.nodes[k := Fresh(v, tagged, reread)],
                          log := w.log + [Landed(k, stored, reread, Fresh(v, tagged, reread), v)])
  {
    var stored, v := Lookup(w, k), Version(w, k);
    var read := w.(tasks := w.tasks[t := Reading(k, stored)]);
    assert Next(w, pointOps, ReadRow(t, k)) == read;
    assert w.tasks[t := Reading(k, stored)] - {t} == w.tasks;
    if stored.Some? && stored.value.etag == Some(v) {
      UnchangedEffect(read, pointOps, t, tagged, rereadOk);
    } else {
      var etag := if tagged then Some(v) else None;
      var answered := read.(tasks := read.tasks[t := Answered(k, stored, etag, v)]);
      assert Next(read, pointOps, Get(t, Object(tagged))) == answered;
      assert answered.tasks - {t} == w.tasks;
      AnsweredEffect(answered, pointOps, t, rereadOk);
    }
  }

  /** After a 304 the task is gone and nothing more happens. */
  lemma UnchangedEffect(w: World, pointOps: set<string>, t: nat, tagged: bool, rereadOk: bool)
    requires t in w.tasks && w.tasks[t].Reading? && w.tasks[t].stored.Some?
    requires w.tasks[t].stored.value.etag == Some(Version(w, w.tasks[t].key))
    ensures var Reading(k, stored) := w.tasks[t];
            Next(Next(Next(w, pointOps, Get(t, Object(tagged))), pointOps, Reread(t, rereadOk)), pointOps, Write(t, true))
            == w.(tasks := w.tasks - {t}, log := w.log + [NotModified(k, stored.value, Version(w, k))])
  {}

  /** After a 200 the re-read and the write choose the body. */
  lemma AnsweredEffect(w: World, pointOps: set<string>, t: nat, rereadOk: bool)
    requires t in w.tasks && w.tasks[t].Answered? && w.tasks[t].got == Version(w, w.tasks[t].key)
    ensures var Answered(k, stored, etag, got) := w.tasks[t];
            var reread := rereadOk && k in pointOps;
            var node := Node(etag, got, if reread then Graph else Rest);
            var w' := Next(Next(w, pointOps, Reread(t, rereadOk)), pointOps, Write(t, true));
            if Keeps(pointOps, k, stored, rereadOk)
            then w' == w.(tasks := w.tasks - {t}, log := w.log + [KeptStored(k, stored, false, stored.value, got)])
            else w' == w.(tasks := w.tasks - {t}, nodes := w.nodes[k := node], log := w.log + [Landed(k, stored, reread, node, got)])
  {
    var Answered(k, stored, etag, got) := w.tasks[t];
    var r := Next(w, pointOps, Reread(t, rereadOk));
    if Keeps(pointOps, k, stored, rereadOk) {
      assert r == End(w, t, KeptStored(k, stored, false, stored.value, got));
    } else {
      var reread := rereadOk && k in pointOps;
      var task := Writing(k, stored, reread, Node(etag, got, if reread then Graph else Rest), got);
      assert r == w.(tasks := w.tasks[t := task]);
      assert w.tasks[t := task] - {t} == w.tasks - {t};
    }
  }

  lemma WriteEffect(w: World, pointOps: set<string>, t: nat, task: Task)
    requires task.Writing?
    ensures var w' := Next(w.(tasks := w.tasks[t := task]), pointOps, Write(t, true));
            w'.upstream == w.upstream && w'.nodes == w.nodes[task.key := task.node]
  {}

  /**
   * A revalidation that upstream answers heals a missed invalidation: afterwards the stored body is
   * upstream's, except exactly when the object changed, its canonical re-read failed and the store
   * already held the canonical shape of an older version.
   */
  lemma RevalidationHeals(pointOps: set<string>, steps: seq<Step>, t: nat, k: string, tagged: bool, rereadOk: bool)
    requires t !in Run(pointOps, steps).tasks && k in Run(pointOps, steps).nodes
    ensures var w := Run(pointOps, steps);
            var n := w.nodes[k];
            var w' := Alone(w, pointOps, t, k, tagged, rereadOk);
            k in w'.nodes &&
            (w'.nodes[k].body == Version(w', k)
             <==> !(n.etag != Some(Version(w, k)) && !rereadOk && k in pointOps && n.shape == Graph && n.body != Version(w, k)))
  {
    StoredNeverAhead(pointOps, steps, k);
    AloneEffect(Run(pointOps, steps), pointOps, t, k, tagged, rereadOk);
  }

  /** A list read, a change upstream, then a fetch whose canonical re-read fails. */
  function OldBodyRun(k: string): seq<Step> {
    [ListUpstream(0, {k}), StoreMember(0, k, Graph), Mutate(k), ReadRow(1, k), Get(1, Object(true)), Reread(1, false)]
  }

  function OldBodyWorld(k: string): World {
    START.(tasks := map[0 := Listing(map[k := 0])], nodes := map[k := Node(None, 0, Graph)], upstream := map[k := 1])
  }

  lemma OldBodySetup(k: string)
    ensures Run({k}, OldBodyRun(k)[..3]) == OldBodyWorld(k)
  {
    var s := OldBodyRun(k);
    assert s[..0] == [];
    assert Snapshot(START, {k}) == map[k := 0];
    RunPrefix({k}, s, 1);
    RunPrefix({k}, s, 2);
    RunPrefix({k}, s, 3);
  }

  lemma OldBodyFetch(k: string)
    ensures var w := OldBodyWorld(k);
            var answered := Next(Next(w, {k}, ReadRow(1, k)), {k}, Get(1, Object(true)));
            Next(answered, {k}, Reread(1, false)).log == [KeptStored(k, Some(Node(None, 0, Graph)), false, Node(None, 0, Graph), 1)]
  {
    var w, n := OldBodyWorld(k), Node(None, 0, Graph);
    assert 1 !in w.tasks && Lookup(w, k) == Some(n) && Version(w, k) == 1;
  }

  /** A 200 whose re-read failed can hand back a body older than its GET. */
  lemma KeptBodyCanBeOld(k: string)
    ensures Run({k}, OldBodyRun(k)).log == [KeptStored(k, Some(Node(None, 0, Graph)), false, Node(None, 0, Graph), 1)]
  {
    OldBodySetup(k);
    OldBodyFetch(k);
    RunThreeMore({k}, OldBodyRun(k)[..3], ReadRow(1, k), Get(1, Object(true)), Reread(1, false));
    assert OldBodyRun(k) == OldBodyRun(k)[..3] + [ReadRow(1, k), Get(1, Object(true)), Reread(1, false)];
  }

  lemma RunThreeMore(pointOps: set<string>, s: seq<Step>, a: Step, b: Step, c: Step)
    ensures Run(pointOps, s + [a, b, c]) == Next(Next(Next(Run(pointOps, s), pointOps, a), pointOps, b), pointOps, c)
  {
    var t := s + [a, b, c];
    RunPrefix(pointOps, t, |t| - 2);
    RunPrefix(pointOps, t, |t| - 1);
    RunPrefix(pointOps, t, |t|);
    assert t[..|t|] == t && t[..|t| - 3] == s;
  }

  lemma RunPrefix(pointOps: set<string>, s: seq<Step>, n: nat)
    requires 0 < n <= |s|
    ensures Run(pointOps, s[..n]) == Next(Run(pointOps, s[..n - 1]), pointOps, s[n - 1])
  {
    assert s[..n][..n - 1] == s[..n - 1];
  }
}
