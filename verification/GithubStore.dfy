/**
 * plugins/github/store.go:104-185 with the list half of plugins/github/executor.go:184-217 and the
 * webhook's purges: the node table, the tag index, and what an eviction removes.
 */
module GithubStore {
  import opened Options
  import opened RowLists
  import opened Text
  import opened GithubKeys

  /** A row of github_nodes; lists are told apart by their typename. */
  datatype Node = Object(body: string) | List(body: string)

  datatype Tables = Tables(nodes: map<string, Node>, tags: set<(string, string)>)

  /** The loaded list ops: the kinds of each op's key templates, in header order. */
  type Ops = map<string, seq<string>>

  /** A kind an object key can have: none of the key table's kinds is "list" or holds a ':'. */
  predicate ObjectKind(kind: string) { ':' !in kind && kind != "list" }

  predicate OpsOk(ops: Ops) {
    forall name :: name in ops ==> ':' !in name
  }

  lemma NotTheListKind(i: nat)
    requires i < |KIND_SPECS|
    ensures KIND_SPECS[i].kind != "list"
  {}

  // ---------------------------------------------------------------- list keys

  function ListKey(op: string, scope: string): string { "list:" + op + ":" + scope }

  function ListName(key: string): string { if |key| < 5 then "" else Cut(key[5..], ':').before }

  function ListScope(key: string): string { if |key| < 5 then "" else Cut(key[5..], ':').after }

  lemma ListKeyParts(op: string, scope: string)
    requires ':' !in op
    ensures ListName(ListKey(op, scope)) == op && ListScope(ListKey(op, scope)) == scope
  {
    assert ListKey(op, scope)[5..] == op + ":" + scope;
    CutJoined(op, ':', scope);
  }

  lemma ListKeyKind(op: string, scope: string)
    ensures KindOf(ListKey(op, scope)) == "list"
  {
    var k := ListKey(op, scope);
    assert k == "list" + [':'] + (op + ":" + scope);
    CutJoined("list", ':', op + ":" + scope);
  }

  lemma ObjectKeyKind(kind: string, rest: string)
    requires ':' !in kind
    ensures KindOf(kind + ":" + rest) == kind
  {
    CutJoined(kind, ':', rest);
  }

  // ---------------------------------------------------------------- scopes

  /** substitute on one placeholder: a variable the caller left out stays as its placeholder. */
  function Placed(v: Option<string>, hole: string): string { if v.Some? then v.value else hole }

  const OWNER_HOLE := "{owner}"
  const REPO_HOLE := "{repo}"

  /** The scope of a list op over the template repo:{owner}/{repo}. */
  function ScopeOf(owner: Option<string>, repo: Option<string>): string {
    "repo:" + Placed(owner, OWNER_HOLE) + "/" + Placed(repo, REPO_HOLE)
  }

  /** What the request handler lets through: a missing variable, or a safe name. */
  predicate Allowed(v: Option<string>) { v.Some? ==> SafeName(v.value) }

  /** The tag a list result is filed under: its scope and the kind of its first key template. */
  function Cover(kinds: seq<string>, scope: string): string
    requires kinds != []
  {
    scope + "|" + kinds[0]
  }

  // ---------------------------------------------------------------- the statements

  function Upsert(db: Tables, key: string, n: Node): Tables { db.(nodes := db.nodes[key := n]) }

  function PutList(db: Tables, lk: string, body: string, comp: string): Tables {
    var db1 := Upsert(db, lk, List(body));
    if comp == "" then db1 else db1.(tags := db1.tags + {(comp, lk)})
  }

  /** The lists filed under the tag of `key`. */
  function Covered(db: Tables, key: string): set<string> {
    if Composite(key) == "" then {} else set p | p in db.tags && p.0 == Composite(key) :: p.1
  }

  function Drop(db: Tables, keys: set<string>): Tables {
    Tables(db.nodes - keys, set p | p in db.tags && p.1 !in keys)
  }

  function Purge(db: Tables, key: string): Tables { Drop(db, Covered(db, key) + {key}) }

  // ---------------------------------------------------------------- running a list op

  /** One object of a list response, stored under its kind's key. */
  datatype Member = Member(kind: string, rest: string, body: string)

  function StoreMembers(db: Tables, members: seq<Member>): Tables
    decreases members
  {
    if members == [] then db
    else
      var m := members[0];
      var db1 := if ObjectKind(m.kind) then Upsert(db, m.kind + ":" + m.rest, Object(m.body)) else db;
      StoreMembers(db1, members[1..])
  }

  /** What runOp serves for a list: the stored body on a hit, else what upstream returned. */
  function Served(db: Tables, lk: string, upstream: Option<string>): Option<string> {
    if lk in db.nodes then Some(db.nodes[lk].body) else upstream
  }

  function Comp(kinds: seq<string>, scope: string): string {
    if kinds == [] then "" else Cover(kinds, scope)
  }

  function RunList(ops: Ops, db: Tables, op: string, scope: string, upstream: Option<string>, members: seq<Member>): Tables {
    var lk := ListKey(op, scope);
    var body := Served(db, lk, upstream);
    if op !in ops || body.None? then db
    else PutList(StoreMembers(db, members), lk, body.value, Comp(ops[op], scope))
  }

  // ---------------------------------------------------------------- whole runs

  datatype Step =
    | StoreNode(kind: string, rest: string, body: string)
    | Query(op: string, owner: Option<string>, repo: Option<string>, vars: map<string, string>, upstream: Option<string>, members: seq<Member>)
    | Evict(key: string)

  function Next(ops: Ops, db: Tables, step: Step): Tables {
    match step
    case StoreNode(kind, rest, body) => if ObjectKind(kind) then Upsert(db, kind + ":" + rest, Object(body)) else db
    case Query(op, owner, repo, _, upstream, members) =>
      if Allowed(owner) && Allowed(repo) then RunList(ops, db, op, ScopeOf(owner, repo), upstream, members) else db
    case Evict(key) => Purge(db, key)
  }

  function Run(ops: Ops, db: Tables, steps: seq<Step>): Tables
    decreases steps
  {
    if steps == [] then db else Run(ops, Next(ops, db, steps[0]), steps[1..])
  }

  const EMPTY := Tables(map[], {})

  // ---------------------------------------------------------------- the index invariant

  predicate Owned(ops: Ops, k: string) {
    ListName(k) in ops && k == ListKey(ListName(k), ListScope(k))
  }

  predicate Filed(ops: Ops, k: string) { Owned(ops, k) && ops[ListName(k)] != [] }

  /** The only tag a list key can have. */
  function TagOf(ops: Ops, k: string): string
    requires Filed(ops, k)
  {
    Cover(ops[ListName(k)], ListScope(k))
  }

  /** A row of github_nodes that is where it should be, with its covering tag in the index. */
  predicate RowOk(ops: Ops, db: Tables, k: string)
    requires k in db.nodes
  {
    match db.nodes[k]
    case Object(_) => KindOf(k) != "list"
    case List(_) => KindOf(k) == "list" && Owned(ops, k) && (Filed(ops, k) ==> (TagOf(ops, k), k) in db.tags)
  }

  predicate TagOk(ops: Ops, db: Tables, p: (string, string)) {
    p.1 in db.nodes && db.nodes[p.1].List? && Filed(ops, p.1) && p.0 == TagOf(ops, p.1)
  }

  /** Every stored list has its covering tag, and every tag names a stored list and is its covering tag. */
  predicate Indexed(ops: Ops, db: Tables) {
    && (forall k :: k in db.nodes ==> RowOk(ops, db, k))
    && (forall p :: p in db.tags ==> TagOk(ops, db, p))
  }

  lemma UpsertObjectKeeps(ops: Ops, db: Tables, kind: string, rest: string, body: string)
    requires Indexed(ops, db) && ObjectKind(kind)
    ensures Indexed(ops, Upsert(db, kind + ":" + rest, Object(body)))
  {
    ObjectKeyKind(kind, rest);
    var key := kind + ":" + rest;
    var db1 := Upsert(db, key, Object(body));
    assert key in db.nodes ==> RowOk(ops, db, key);
    forall k | k in db1.nodes ensures RowOk(ops, db1, k) {
      assert k != key ==> RowOk(ops, db, k);
    }
    forall p | p in db1.tags ensures TagOk(ops, db1, p) {
      assert TagOk(ops, db, p);
    }
  }

  lemma {:induction false} MembersKeep(ops: Ops, db: Tables, members: seq<Member>)
    requires Indexed(ops, db)
    ensures Indexed(ops, StoreMembers(db, members))
    decreases members
  {
    if members != [] {
      var m := members[0];
      if ObjectKind(m.kind) {
        UpsertObjectKeeps(ops, db, m.kind, m.rest, m.body);
        MembersKeep(ops, Upsert(db, m.kind + ":" + m.rest, Object(m.body)), members[1..]);
      } else {
        MembersKeep(ops, db, members[1..]);
      }
    }
  }

  lemma PutListKeeps(ops: Ops, db: Tables, lk: string, body: string)
    requires Indexed(ops, db) && Owned(ops, lk) && KindOf(lk) == "list"
    ensures Indexed(ops, PutList(db, lk, body, Comp(ops[ListName(lk)], ListScope(lk))))
  {
    var comp := Comp(ops[ListName(lk)], ListScope(lk));
    var db1 := PutList(db, lk, body, comp);
    assert Filed(ops, lk) ==> comp == TagOf(ops, lk) && comp != "";
    forall k | k in db1.nodes ensures RowOk(ops, db1, k) {
      assert k != lk ==> RowOk(ops, db, k);
    }
    forall p | p in db1.tags ensures TagOk(ops, db1, p) {
      assert p in db.tags ==> TagOk(ops, db, p);
    }
  }

  lemma DropKeeps(ops: Ops, db: Tables, keys: set<string>)
    requires Indexed(ops, db)
    ensures Indexed(ops, Drop(db, keys))
  {
    var db1 := Drop(db, keys);
    forall k | k in db1.nodes ensures RowOk(ops, db1, k) {
      assert RowOk(ops, db, k);
    }
    forall p | p in db1.tags ensures TagOk(ops, db1, p) {
      assert TagOk(ops, db, p);
    }
  }

  lemma RunListKeeps(ops: Ops, db: Tables, op: string, scope: string, upstream: Option<string>, members: seq<Member>)
    requires Indexed(ops, db) && OpsOk(ops)
    ensures Indexed(ops, RunList(ops, db, op, scope, upstream, members))
  {
    if op in ops {
      ListKeyParts(op, scope);
      ListKeyKind(op, scope);
      MembersKeep(ops, db, members);
      var lk := ListKey(op, scope);
      var body := Served(db, lk, upstream);
      if body.Some? {
        PutListKeeps(ops, StoreMembers(db, members), lk, body.value);
      }
    }
  }

  /** The tag index is exact in every store a run can reach. */
  lemma {:induction false} RunIndexed(ops: Ops, db: Tables, steps: seq<Step>)
    requires OpsOk(ops) && Indexed(ops, db)
    ensures Indexed(ops, Run(ops, db, steps))
    decreases steps
  {
    if steps != [] {
      match steps[0] {
        case StoreNode(kind, rest, body) =>
          if ObjectKind(kind) {
            UpsertObjectKeeps(ops, db, kind, rest, body);
          }
        case Query(op, owner, repo, _, upstream, members) => RunListKeeps(ops, db, op, ScopeOf(owner, repo), upstream, members);
        case Evict(key) => DropKeeps(ops, db, Covered(db, key) + {key});
      }
      RunIndexed(ops, Next(ops, db, steps[0]), steps[1..]);
    }
  }

  // ---------------------------------------------------------------- what a purge removes

  /** The lists a purge of `key` removes are exactly the stored lists whose covering tag is the key's. */
  lemma CoveredExactly(ops: Ops, db: Tables, key: string, k: string)
    requires Indexed(ops, db)
    ensures k in Covered(db, key) <==>
            k in db.nodes && db.nodes[k].List? && Composite(key) != "" && Filed(ops, k) && TagOf(ops, k) == Composite(key)
  {
    if k in Covered(db, key) {
      assert TagOk(ops, db, (Composite(key), k));
    }
    if k in db.nodes {
      assert RowOk(ops, db, k);
      if Filed(ops, k) && (TagOf(ops, k), k) in db.tags && Composite(key) != "" && TagOf(ops, k) == Composite(key) {
        assert (Composite(key), k) in db.tags;
      }
    }
  }

  /** The tag of a list over an allowed scope is a repository's tag for that repository alone. */
  lemma CoverMeets(kinds: seq<string>, owner: Option<string>, repo: Option<string>, o: string, r: string, kind: string)
    requires kinds != [] && Allowed(owner) && Allowed(repo) && SafeName(o) && SafeName(r) && o != "" && r != ""
    ensures Cover(kinds, ScopeOf(owner, repo)) == ScopeTag(o, r, kind) <==> owner == Some(o) && repo == Some(r) && kinds[0] == kind
  {
    var o', r' := Placed(owner, OWNER_HOLE), Placed(repo, REPO_HOLE);
    CoverIsTag(kinds, owner, repo);
    HolesUnsafe();
    SafeNameIsClean(o);
    SafeNameIsClean(r);
    SafeNameIsClean(if owner.Some? then owner.value else o);
    SafeNameIsClean(if repo.Some? then repo.value else r);
    if ScopeTag(o', r', kinds[0]) == ScopeTag(o, r, kind) {
      ScopeTagInjective(o', r', kinds[0], o, r, kind);
    }
  }

  lemma CoverIsTag(kinds: seq<string>, owner: Option<string>, repo: Option<string>)
    requires kinds != []
    ensures Cover(kinds, ScopeOf(owner, repo)) == ScopeTag(Placed(owner, OWNER_HOLE), Placed(repo, REPO_HOLE), kinds[0])
  {}

  lemma HolesUnsafe()
    ensures !SafeName(OWNER_HOLE) && !SafeName(REPO_HOLE)
    ensures '/' !in OWNER_HOLE && '|' !in REPO_HOLE
  {
    assert OWNER_HOLE[0] == '{' && REPO_HOLE[0] == '{';
  }

  /** A key whose tag is that of one repository: what a webhook purges. */
  predicate RepoKey(key: string, o: string, r: string) {
    SafeName(o) && SafeName(r) && o != "" && r != "" && Composite(key) == ScopeTag(o, r, KindOf(key)) && KindOf(key) != "list"
  }

  /**
   * Purge exactness. A list that was stored is gone if and only if it lists the key's own repository
   * and the kind of its op's first key template is the key's kind.
   */
  lemma PurgeListExactly(ops: Ops, db: Tables, key: string, o: string, r: string, op: string, owner: Option<string>,
                         repo: Option<string>)
    requires OpsOk(ops) && Indexed(ops, db) && RepoKey(key, o, r)
    requires op in ops && Allowed(owner) && Allowed(repo) && ListKey(op, ScopeOf(owner, repo)) in db.nodes
    ensures ListKey(op, ScopeOf(owner, repo)) !in Purge(db, key).nodes <==>
            owner == Some(o) && repo == Some(r) && ops[op] != [] && ops[op][0] == KindOf(key)
  {
    var scope := ScopeOf(owner, repo);
    CoveredList(ops, db, key, op, scope);
    ListKeyKind(op, scope);
    if ops[op] != [] {
      CoverMeets(ops[op], owner, repo, o, r, KindOf(key));
    }
    assert Composite(key) != "";
  }

  lemma CoveredList(ops: Ops, db: Tables, key: string, op: string, scope: string)
    requires OpsOk(ops) && Indexed(ops, db) && op in ops && ListKey(op, scope) in db.nodes
    ensures ListKey(op, scope) in Covered(db, key) <==> Composite(key) != "" && ops[op] != [] && Cover(ops[op], scope) == Composite(key)
  {
    var lk := ListKey(op, scope);
    ListKeyParts(op, scope);
    ListKeyKind(op, scope);
    assert RowOk(ops, db, lk);
    CoveredExactly(ops, db, key, lk);
  }

  /** A purge removes no object but the one named, and changes no row it keeps. */
  lemma PurgeSparesTheRest(ops: Ops, db: Tables, key: string, k: string)
    requires Indexed(ops, db) && k in db.nodes
    ensures k in Purge(db, key).nodes ==> Purge(db, key).nodes[k] == db.nodes[k]
    ensures db.nodes[k].Object? ==> (k !in Purge(db, key).nodes <==> k == key)
    ensures key !in Purge(db, key).nodes
  {
    CoveredExactly(ops, db, key, k);
  }

  // ---------------------------------------------------------------- a whole webhook

  /** The purges of one webhook, in order: the touched key, then the related ones that differ from it. */
  function PurgeRest(db: Tables, key: string, related: seq<string>): Tables
    decreases related
  {
    if related == [] then db
    else PurgeRest(if related[0] == key then db else Purge(db, related[0]), key, related[1..])
  }

  function WebhookPurge(db: Tables, key: string, related: seq<string>): Tables { PurgeRest(Purge(db, key), key, related) }

  /** The list of an op over one scope is still stored. */
  predicate Holds(db: Tables, op: string, owner: Option<string>, repo: Option<string>) { ListKey(op, ScopeOf(owner, repo)) in db.nodes }

  predicate Hits(ops: Ops, op: string, owner: Option<string>, repo: Option<string>, o: string, r: string, kind: string)
    requires op in ops
  {
    owner == Some(o) && repo == Some(r) && ops[op] != [] && ops[op][0] == kind
  }

  lemma PurgeHolds(ops: Ops, db: Tables, key: string, o: string, r: string, op: string, owner: Option<string>,
                   repo: Option<string>)
    requires OpsOk(ops) && Indexed(ops, db) && RepoKey(key, o, r)
    requires op in ops && Allowed(owner) && Allowed(repo)
    ensures Holds(Purge(db, key), op, owner, repo) <==> Holds(db, op, owner, repo) && !Hits(ops, op, owner, repo, o, r, KindOf(key))
    ensures Indexed(ops, Purge(db, key))
  {
    DropKeeps(ops, db, Covered(db, key) + {key});
    if Holds(db, op, owner, repo) {
      PurgeListExactly(ops, db, key, o, r, op, owner, repo);
    }
  }

  /** A list of two kinds is filed under the first alone: no purge of the second kind ever evicts it. */
  lemma SecondKindNeverEvicts(ops: Ops, db: Tables, key: string, o: string, r: string, op: string,
                              owner: Option<string>, repo: Option<string>)
    requires OpsOk(ops) && Indexed(ops, db) && RepoKey(key, o, r)
    requires op in ops && |ops[op]| == 2 && ops[op][0] != ops[op][1] == KindOf(key)
    requires Allowed(owner) && Allowed(repo) && Holds(db, op, owner, repo)
    ensures Holds(Purge(db, key), op, owner, repo)
  {
    PurgeHolds(ops, db, key, o, r, op, owner, repo);
  }

  lemma {:induction false} PurgeRestHolds(ops: Ops, db: Tables, key: string, related: seq<string>, o: string, r: string,
                                          op: string, owner: Option<string>, repo: Option<string>)
    requires OpsOk(ops) && Indexed(ops, db) && op in ops && Allowed(owner) && Allowed(repo)
    requires forall i :: 0 <= i < |related| ==> RepoKey(related[i], o, r) && KindOf(related[i]) == "pr"
    requires KindOf(key) == "pr" ==> !Holds(db, op, owner, repo) || !Hits(ops, op, owner, repo, o, r, "pr")
    ensures Holds(PurgeRest(db, key, related), op, owner, repo) <==>
            Holds(db, op, owner, repo) && !(related != [] && Hits(ops, op, owner, repo, o, r, "pr"))
    decreases related
  {
    if related != [] {
      var k := related[0];
      assert RepoKey(k, o, r);
      var db1 := if k == key then db else Purge(db, k);
      if k != key {
        PurgeHolds(ops, db, k, o, r, op, owner, repo);
      }
      PurgeRestHolds(ops, db1, key, related[1..], o, r, op, owner, repo);
    }
  }

  /**
   * After a webhook, a stored list is gone exactly when it lists the webhook's repository and its first
   * key template has the touched key's kind, or pull requests when the webhook names some.
   */
  lemma WebhookEvictsExactly(ops: Ops, db: Tables, event: string, payload: Json, show: Json -> string,
                             op: string, owner: Option<string>, repo: Option<string>)
    requires OpsOk(ops) && Indexed(ops, db) && EventKey(event, payload, show).Some?
    requires op in ops && Allowed(owner) && Allowed(repo)
    ensures var key, n := EventKey(event, payload, show).value, RepoFullName(payload);
            var related := KeysFor(Keyfmt("pr", HashDisc), n, RelatedNumbers(event, payload, show));
            Holds(WebhookPurge(db, key, related), op, owner, repo) <==>
            && Holds(db, op, owner, repo)
            && !Hits(ops, op, owner, repo, n.owner, n.repo, KindOf(key))
            && !(RelatedNumbers(event, payload, show) != [] && Hits(ops, op, owner, repo, n.owner, n.repo, "pr"))
  {
    var key, n := EventKey(event, payload, show).value, RepoFullName(payload);
    var related := KeysFor(Keyfmt("pr", HashDisc), n, RelatedNumbers(event, payload, show));
    EventKeyTag(event, payload, show);
    EventKindIsObject(event, payload, show);
    forall i | 0 <= i < |related| ensures RepoKey(related[i], n.owner, n.repo) && KindOf(related[i]) == "pr" {
      RelatedKeyTag(event, payload, show, i);
    }
    PurgeHolds(ops, db, key, n.owner, n.repo, op, owner, repo);
    PurgeRestHolds(ops, Purge(db, key), key, related, n.owner, n.repo, op, owner, repo);
  }

  lemma PurgeOtherObject(ops: Ops, db: Tables, r: string, k: string)
    requires Indexed(ops, db) && k in db.nodes && db.nodes[k].Object? && k != r
    ensures Indexed(ops, Purge(db, r)) && k in Purge(db, r).nodes && Purge(db, r).nodes[k] == db.nodes[k]
  {
    DropKeeps(ops, db, Covered(db, r) + {r});
    PurgeSparesTheRest(ops, db, r, k);
  }

  /** Of the objects, the related purges remove exactly the related keys and change none they keep. */
  lemma {:induction false} PurgeRestObjects(ops: Ops, db: Tables, key: string, related: seq<string>, k: string)
    requires Indexed(ops, db) && k in db.nodes && db.nodes[k].Object? && k != key
    ensures k !in PurgeRest(db, key, related).nodes <==> k in related
    ensures k in PurgeRest(db, key, related).nodes ==> PurgeRest(db, key, related).nodes[k] == db.nodes[k]
    decreases related
  {
    if related != [] {
      var r, rest := related[0], related[1..];
      assert k in related <==> k == r || k in rest;
      if r == key {
        PurgeRestObjects(ops, db, key, rest, k);
      } else if r == k {
        GoneStays(Purge(db, r), key, rest, k);
      } else {
        PurgeOtherObject(ops, db, r, k);
        PurgeRestObjects(ops, Purge(db, r), key, rest, k);
      }
    }
  }

  lemma {:induction false} GoneStays(db: Tables, key: string, related: seq<string>, k: string)
    requires k !in db.nodes
    ensures k !in PurgeRest(db, key, related).nodes
    decreases related
  {
    if related != [] {
      GoneStays(if related[0] == key then db else Purge(db, related[0]), key, related[1..], k);
    }
  }

  /** Of the objects, a whole webhook removes exactly the touched key and the related ones, and changes none it keeps. */
  lemma WebhookObjectsExactly(ops: Ops, db: Tables, key: string, related: seq<string>, k: string)
    requires Indexed(ops, db) && k in db.nodes && db.nodes[k].Object?
    ensures k !in WebhookPurge(db, key, related).nodes <==> k == key || k in related
    ensures k in WebhookPurge(db, key, related).nodes ==> WebhookPurge(db, key, related).nodes[k] == db.nodes[k]
  {
    if k == key {
      GoneStays(Purge(db, key), key, related, k);
    } else {
      PurgeOtherObject(ops, db, key, k);
      PurgeRestObjects(ops, Purge(db, key), key, related, k);
    }
  }

  lemma EventKindIsObject(event: string, payload: Json, show: Json -> string)
    requires EventKey(event, payload, show).Some?
    ensures KindOf(EventKey(event, payload, show).value) != "list"
  {
    EventKeyParses(event, payload, show);
    var s := SpecByEvent(event, 0).value;
    var j :| 0 <= j < |KIND_SPECS| && s == KIND_SPECS[j] && event in KIND_SPECS[j].events;
    NotTheListKind(j);
  }

  lemma RelatedKeyTag(event: string, payload: Json, show: Json -> string, i: nat)
    requires i < |RelatedNumbers(event, payload, show)|
    ensures var n := RepoFullName(payload);
            var key := KeysFor(Keyfmt("pr", HashDisc), n, RelatedNumbers(event, payload, show))[i];
            RepoKey(key, n.owner, n.repo) && KindOf(key) == "pr"
  {
    BuiltTag("pr", HashDisc, RepoFullName(payload), RelatedNumbers(event, payload, show)[i]);
  }

  lemma {:induction false} MembersMissLists(db: Tables, members: seq<Member>, lk: string)
    requires KindOf(lk) == "list"
    ensures lk in StoreMembers(db, members).nodes <==> lk in db.nodes
    ensures lk in db.nodes ==> StoreMembers(db, members).nodes[lk] == db.nodes[lk]
    decreases members
  {
    if members != [] {
      var m := members[0];
      if ObjectKind(m.kind) {
        ObjectKeyKind(m.kind, m.rest);
        MembersMissLists(Upsert(db, m.kind + ":" + m.rest, Object(m.body)), members[1..], lk);
      } else {
        MembersMissLists(db, members[1..], lk);
      }
    }
  }

  /** A purge step that evicts the list. */
  predicate EvictsList(ops: Ops, lk: string, step: Step) {
    step.Evict? && (step.key == lk || (Filed(ops, lk) && TagOf(ops, lk) == Composite(step.key)))
  }

  /** Once stored, a list is served unchanged through any run that holds no purge evicting it. */
  lemma {:induction false} ServedUntilEvicted(ops: Ops, db: Tables, steps: seq<Step>, lk: string)
    requires OpsOk(ops) && Indexed(ops, db) && lk in db.nodes && db.nodes[lk].List?
    requires forall i :: 0 <= i < |steps| ==> !EvictsList(ops, lk, steps[i])
    ensures forall upstream :: Served(Run(ops, db, steps), lk, upstream) == Some(db.nodes[lk].body)
    decreases steps
  {
    if steps != [] {
      assert RowOk(ops, db, lk);
      var db1 := Next(ops, db, steps[0]);
      RunIndexed(ops, db, [steps[0]]);
      assert Run(ops, db, [steps[0]]) == Run(ops, db1, []) == db1;
      StepKeepsList(ops, db, steps[0], lk);
      ServedUntilEvicted(ops, db1, steps[1..], lk);
    }
  }

  lemma StepKeepsList(ops: Ops, db: Tables, step: Step, lk: string)
    requires OpsOk(ops) && Indexed(ops, db) && lk in db.nodes && db.nodes[lk].List? && !EvictsList(ops, lk, step)
    ensures var db1 := Next(ops, db, step); lk in db1.nodes && db1.nodes[lk] == db.nodes[lk]
  {
    assert RowOk(ops, db, lk);
    match step {
      case StoreNode(kind, rest, body) => if ObjectKind(kind) { UpsertKeepsList(db, kind, rest, body, lk); }
      case Query(op, owner, repo, _, upstream, members) => RunListKeepsList(ops, db, op, ScopeOf(owner, repo), upstream, members, lk);
      case Evict(key) => PurgeKeepsList(ops, db, key, lk);
    }
  }

  lemma UpsertKeepsList(db: Tables, kind: string, rest: string, body: string, lk: string)
    requires ObjectKind(kind) && KindOf(lk) == "list" && lk in db.nodes
    ensures var db1 := Upsert(db, kind + ":" + rest, Object(body)); lk in db1.nodes && db1.nodes[lk] == db.nodes[lk]
  {
    ObjectKeyKind(kind, rest);
  }

  lemma PurgeKeepsList(ops: Ops, db: Tables, key: string, lk: string)
    requires Indexed(ops, db) && lk in db.nodes && !EvictsList(ops, lk, Evict(key))
    ensures lk in Purge(db, key).nodes && Purge(db, key).nodes[lk] == db.nodes[lk]
  {
    CoveredExactly(ops, db, key, lk);
  }

  lemma RunListKeepsList(ops: Ops, db: Tables, op: string, scope: string, upstream: Option<string>,
                         members: seq<Member>, lk: string)
    requires lk in db.nodes && db.nodes[lk].List? && KindOf(lk) == "list"
    ensures var db1 := RunList(ops, db, op, scope, upstream, members); lk in db1.nodes && db1.nodes[lk] == db.nodes[lk]
  {
    MembersMissLists(db, members, lk);
  }

  /** After an eviction the op's next run goes upstream, and what it finds there is served until the next eviction. */
  lemma MissServesLatest(ops: Ops, db: Tables, op: string, scope: string, latest: string, members: seq<Member>, steps: seq<Step>)
    requires OpsOk(ops) && Indexed(ops, db) && op in ops && ListKey(op, scope) !in db.nodes
    requires forall i :: 0 <= i < |steps| ==> !EvictsList(ops, ListKey(op, scope), steps[i])
    ensures var db1 := RunList(ops, db, op, scope, Some(latest), members);
            forall upstream :: Served(Run(ops, db1, steps), ListKey(op, scope), upstream) == Some(latest)
  {
    RunListKeeps(ops, db, op, scope, Some(latest), members);
    ServedUntilEvicted(ops, RunList(ops, db, op, scope, Some(latest), members), steps, ListKey(op, scope));
  }

  // ---------------------------------------------------------------- the store as it runs

  class Store {
    var nodes: map<string, Node>
    var tags: set<(string, string)>

    ghost function State(): Tables
      reads this
    {
      Tables(nodes, tags)
    }

    constructor ()
      ensures State() == EMPTY
    {
      nodes := map[];
      tags := {};
    }

    method UpsertNode(key: string, n: Node)
      modifies this
      ensures State() == Upsert(old(State()), key, n)
    {
      nodes := nodes[key := n];
    }

    method PutListRow(lk: string, body: string, comp: string)
      modifies this
      ensures State() == PutList(old(State()), lk, body, comp)
    {
      UpsertNode(lk, List(body));
      if comp == "" {
        return;
      }
      tags := tags + {(comp, lk)};
    }

    /** The two DELETE statements for one key. */
    method DeleteKey(key: string)
      modifies this
      ensures State() == Drop(old(State()), {key})
    {
      nodes := nodes - {key};
      tags := set p | p in tags && p.1 !in {key};
    }

    /** The loop of purge over the tag rows it read. */
    method DeleteAll(keys: set<string>) returns (deleted: seq<string>)
      modifies this
      ensures State() == Drop(old(State()), keys)
      ensures Lists(deleted, keys)
    {
      deleted := [];
      var rows := keys;
      DropNone(State());
      assert keys - rows == {};
      while rows != {}
        invariant rows <= keys
        invariant State() == Drop(old(State()), keys - rows)
        invariant Lists(deleted, keys - rows)
        decreases rows
      {
        var lk :| lk in rows;
        DropMore(old(State()), keys - rows, lk);
        ListsMore(deleted, keys - rows, lk);
        DeleteKey(lk);
        deleted := deleted + [lk];
        assert keys - (rows - {lk}) == (keys - rows) + {lk};
        rows := rows - {lk};
      }
      assert keys - rows == keys;
    }

    /** purge: the tag rows are read first, then deleted one by one, then the key itself. */
    method PurgeKey(key: string) returns (deleted: seq<string>)
      modifies this
      ensures State() == Purge(old(State()), key)
      ensures Lists(deleted, Covered(old(State()), key) + (if key in old(nodes) then {key} else {}))
    {
      var covered := Covered(Tables(nodes, tags), key);
      deleted := DeleteAll(covered);
      DropMore(old(State()), covered, key);
      var hit := key in nodes;
      DeleteKey(key);
      if hit {
        ListsMore(deleted, covered, key);
        deleted := deleted + [key];
      } else {
        assert key in old(nodes) ==> covered + {key} == covered;
        assert covered + {} == covered;
      }
    }
  }

  lemma DropNone(db: Tables)
    ensures Drop(db, {}) == db
  {
    assert db.nodes - {} == db.nodes;
  }

  lemma DropMore(db: Tables, keys: set<string>, k: string)
    ensures Drop(Drop(db, keys), {k}) == Drop(db, keys + {k})
  {
    assert db.nodes - keys - {k} == db.nodes - (keys + {k});
  }
}
