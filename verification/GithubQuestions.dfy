/**
 * Whether a cached list answers the question asked: plugins/github/executor.go:184-209 keys a list by its
 * op and its scope alone, whatever else the op's query asks about.
 */
module GithubQuestions {
  import opened Options
  import opened Text
  import opened GithubKeys
  import opened GithubStore

  /** For each op, the variables of its query besides owner and repo. */
  type Extras = map<string, set<string>>

  /** What a list query asks upstream. */
  datatype Question = Question(op: string, owner: Option<string>, repo: Option<string>, vars: map<string, string>)

  function Only(vars: map<string, string>, names: set<string>): map<string, string> { map v | v in vars && v in names :: vars[v] }

  function Asks(extras: Extras, q: Step): Question
    requires q.Query? && q.op in extras
  {
    Question(q.op, q.owner, q.repo, Only(q.vars, extras[q.op]))
  }

  predicate Runs(ops: Ops, extras: Extras, q: Step) {
    q.Query? && q.op in ops && q.op in extras && Allowed(q.owner) && Allowed(q.repo)
  }

  function KeyOf(q: Step): string
    requires q.Query?
  {
    ListKey(q.op, ScopeOf(q.owner, q.repo))
  }

  /** The question each stored list was fetched for. A hit fetches nothing. */
  function Fetched(ops: Ops, extras: Extras, steps: seq<Step>): map<string, Question> {
    if steps == [] then map[]
    else
      var init, last := steps[..|steps| - 1], steps[|steps| - 1];
      var before := Fetched(ops, extras, init);
      if Runs(ops, extras, last) && KeyOf(last) !in After(ops, init).nodes && last.upstream.Some?
      then before[KeyOf(last) := Asks(extras, last)] else before
  }

  /** The store after a run from the start. */
  function After(ops: Ops, steps: seq<Step>): Tables {
    if steps == [] then EMPTY else Next(ops, After(ops, steps[..|steps| - 1]), steps[|steps| - 1])
  }

  /** A query after a run is served what was fetched for it, or nothing stored. */
  predicate HitAnswers(ops: Ops, extras: Extras, steps: seq<Step>, q: Step) {
    Runs(ops, extras, q) && KeyOf(q) in After(ops, steps).nodes ==>
      KeyOf(q) in Fetched(ops, extras, steps) && Fetched(ops, extras, steps)[KeyOf(q)] == Asks(extras, q)
  }

  // ---------------------------------------------------------------- what is known of every stored list

  predicate Known(ops: Ops, extras: Extras, lk: string, a: Question) {
    && a.op in ops && a.op in extras && Allowed(a.owner) && Allowed(a.repo)
    && lk == ListKey(a.op, ScopeOf(a.owner, a.repo))
    && a.vars.Keys <= extras[a.op]
  }

  predicate AllKnown(ops: Ops, extras: Extras, db: Tables, fetched: map<string, Question>) {
    forall lk :: lk in db.nodes && db.nodes[lk].List? ==> lk in fetched && Known(ops, extras, lk, fetched[lk])
  }

  /** A step brings in no list but the one its query stores. */
  lemma NewListsOnly(ops: Ops, db: Tables, step: Step, lk: string)
    requires lk in Next(ops, db, step).nodes && Next(ops, db, step).nodes[lk].List?
    ensures (lk in db.nodes && db.nodes[lk].List?) ||
            (step.Query? && step.op in ops && Allowed(step.owner) && Allowed(step.repo) && lk == KeyOf(step) &&
             Served(db, lk, step.upstream).Some?)
  {
    if step.Query? {
      MembersAreObjects(db, step.members, lk);
    }
  }

  lemma {:induction false} MembersAreObjects(db: Tables, members: seq<Member>, lk: string)
    ensures var db1 := StoreMembers(db, members); lk in db1.nodes && db1.nodes[lk].List? ==> lk in db.nodes && db.nodes[lk].List?
    decreases members
  {
    if members != [] {
      var m := members[0];
      MembersAreObjects(if ObjectKind(m.kind) then Upsert(db, m.kind + ":" + m.rest, Object(m.body)) else db, members[1..], lk);
    }
  }

  predicate SameOps(ops: Ops, extras: Extras) { ops.Keys == extras.Keys }

  lemma {:induction false} AfterIndexed(ops: Ops, steps: seq<Step>)
    ensures OpsOk(ops) ==> Indexed(ops, After(ops, steps))
    decreases steps
  {
    if OpsOk(ops) && steps != [] {
      var init, last := steps[..|steps| - 1], steps[|steps| - 1];
      AfterIndexed(ops, init);
      RunIndexed(ops, After(ops, init), [last]);
      OneStep(ops, After(ops, init), last);
    }
  }

  lemma OneStep(ops: Ops, db: Tables, step: Step)
    ensures GithubStore.Run(ops, db, [step]) == Next(ops, db, step)
  {
    assert [step][1..] == [];
  }

  lemma {:induction false} RunKnown(ops: Ops, extras: Extras, steps: seq<Step>)
    requires OpsOk(ops) && SameOps(ops, extras)
    ensures AllKnown(ops, extras, After(ops, steps), Fetched(ops, extras, steps))
    decreases steps
  {
    if steps != [] {
      var init, last := steps[..|steps| - 1], steps[|steps| - 1];
      RunKnown(ops, extras, init);
      AfterIndexed(ops, init);
      var db, f := After(ops, init), Fetched(ops, extras, init);
      forall lk | lk in After(ops, steps).nodes && After(ops, steps).nodes[lk].List?
        ensures lk in Fetched(ops, extras, steps) && Known(ops, extras, lk, Fetched(ops, extras, steps)[lk])
      {
        NewListsOnly(ops, db, last, lk);
        if lk in db.nodes {
          StoredIsList(ops, db, lk, last);
        }
      }
    }
  }

  /** A row under a list key is a list. */
  lemma StoredIsList(ops: Ops, db: Tables, lk: string, step: Step)
    requires Indexed(ops, db) && lk in db.nodes && (db.nodes[lk].List? || (step.Query? && lk == KeyOf(step)))
    ensures db.nodes[lk].List?
  {
    assert GithubStore.RowOk(ops, db, lk);
    if step.Query? {
      ListKeyKind(step.op, ScopeOf(step.owner, step.repo));
    }
  }

  // ---------------------------------------------------------------- scopes name their repository

  lemma ScopeInjective(o1: Option<string>, r1: Option<string>, o2: Option<string>, r2: Option<string>)
    requires Allowed(o1) && Allowed(r1) && Allowed(o2) && Allowed(r2) && ScopeOf(o1, r1) == ScopeOf(o2, r2)
    ensures o1 == o2 && r1 == r2
  {
    HolesUnsafe();
    var a, b := Placed(o1, OWNER_HOLE), Placed(o2, OWNER_HOLE);
    var c, d := Placed(r1, REPO_HOLE), Placed(r2, REPO_HOLE);
    SafeNameIsClean(if o1.Some? then o1.value else "");
    SafeNameIsClean(if o2.Some? then o2.value else "");
    ScopeTail(a, c);
    ScopeTail(b, d);
    assert ScopeOf(o1, r1)[5..] == ScopeOf(o2, r2)[5..];
    CutJoined(a, '/', c);
    CutJoined(b, '/', d);
  }

  lemma ScopeTail(o: string, r: string)
    ensures ("repo:" + o + "/" + r)[5..] == o + "/" + r
  {}

  // ---------------------------------------------------------------- the results

  /** An op that asks about nothing but its repository is always served an answer to its own question. */
  lemma HitAnswersWhenPlain(ops: Ops, extras: Extras, steps: seq<Step>, q: Step)
    requires OpsOk(ops) && SameOps(ops, extras) && Runs(ops, extras, q) && extras[q.op] == {}
    ensures HitAnswers(ops, extras, steps, q)
  {
    RunKnown(ops, extras, steps);
    AfterIndexed(ops, steps);
    var db, lk := After(ops, steps), KeyOf(q);
    if lk in db.nodes {
      StoredIsList(ops, db, lk, q);
      var a := Fetched(ops, extras, steps)[lk];
      assert Known(ops, extras, lk, a);
      ListKeyParts(a.op, ScopeOf(a.owner, a.repo));
      ListKeyParts(q.op, ScopeOf(q.owner, q.repo));
      ScopeInjective(a.owner, a.repo, q.owner, q.repo);
      assert Only(q.vars, {}) == map[] && a.vars == map[];
    }
  }

  function Ask(op: string, o: string, r: string, v: string, x: string): Step { Query(op, Some(o), Some(r), map[v := x], Some(x), []) }

  /** The failing pair, for every op with another variable: a list cached for one value is served for another. */
  lemma OtherValueServed(ops: Ops, extras: Extras, op: string, o: string, r: string, v: string, x: string, y: string)
    requires OpsOk(ops) && SameOps(ops, extras) && op in ops && v in extras[op] && x != y && SafeName(o) && SafeName(r)
    ensures !HitAnswers(ops, extras, [Ask(op, o, r, v, x)], Ask(op, o, r, v, y))
  {
    var first, second := Ask(op, o, r, v, x), Ask(op, o, r, v, y);
    var steps := [first];
    assert steps[..0] == [];
    assert After(ops, steps) == Next(ops, EMPTY, first);
    assert Fetched(ops, extras, steps) == map[KeyOf(first) := Asks(extras, first)];
    assert KeyOf(first) in Next(ops, EMPTY, first).nodes;
    assert Asks(extras, first).vars[v] == x && Asks(extras, second).vars[v] == y;
  }

  /** A hit answers the question asked, in every run, if and only if the op's query has no variable besides owner and repo. */
  lemma HitAnswersExactly(ops: Ops, extras: Extras, op: string)
    requires OpsOk(ops) && SameOps(ops, extras) && op in ops
    ensures (forall steps, q: Step :: q.Query? && q.op == op ==> HitAnswers(ops, extras, steps, q)) <==> extras[op] == {}
  {
    if extras[op] == {} {
      forall steps, q: Step | q.Query? && q.op == op ensures HitAnswers(ops, extras, steps, q) {
        if Runs(ops, extras, q) {
          HitAnswersWhenPlain(ops, extras, steps, q);
        }
      }
    } else {
      var v :| v in extras[op];
      OtherValueServed(ops, extras, op, "o", "r", v, "5", "7");
    }
  }

  /** The variables of the list ops that ship. */
  const SHIPPED: Extras := map[
    "openIssues" := {}, "openPRs" := {}, "prsAwaitingReview" := {}, "repoLabels" := {},
    "checkRunsForPR" := {"number"}, "issueComments" := {"number"}, "myClaimed" := {"login"}, "paneForBranch" := {"branch"}]

  /** Of the shipped list ops, four serve a cached answer to another question. */
  lemma ShippedFailures(op: string)
    requires op in SHIPPED
    ensures SHIPPED[op] != {} <==> op in {"checkRunsForPR", "issueComments", "myClaimed", "paneForBranch"}
  {}
}
