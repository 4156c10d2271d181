/**
 * What is stored under an object's key (plugins/github/store.go:104-185 with plugins/github/executor.go:184-260):
 * in every run, the body last stored for it since its last purge.
 */
module GithubObjects {
  import opened Options
  import opened Text
  import opened GithubKeys
  import opened GithubStore
  import opened GithubQuestions

  /** A query that reaches its members: a known op, names the handler lets through, and a list from the store or from upstream. */
  predicate Reaches(ops: Ops, db: Tables, q: Step) {
    q.Query? && q.op in ops && Allowed(q.owner) && Allowed(q.repo) && (KeyOf(q) in db.nodes || q.upstream.Some?)
  }

  /** The last of a response's objects with this key. */
  function LastMember(members: seq<Member>, k: string): Option<string> {
    if members == [] then None
    else
      var m := members[|members| - 1];
      if ':' !in m.kind && m.kind != "list" && k == m.kind + ":" + m.rest then Some(m.body)
      else LastMember(members[..|members| - 1], k)
  }

  /** The body last stored for a key since it was last purged. */
  function LastStored(ops: Ops, steps: seq<Step>, k: string): Option<string> {
    if steps == [] then None
    else
      var init := steps[..|steps| - 1];
      var before := LastStored(ops, init, k);
      match steps[|steps| - 1]
      case StoreNode(kind, rest, body) => if ':' !in kind && kind != "list" && k == kind + ":" + rest then Some(body) else before
      case Query(_, _, _, _, _, members) =>
        if Reaches(ops, After(ops, init), steps[|steps| - 1]) && LastMember(members, k).Some? then LastMember(members, k) else before
      case Evict(key) => if key == k then None else before
  }

  function ObjectAt(db: Tables, k: string): Option<string> {
    if k in db.nodes && db.nodes[k].Object? then Some(db.nodes[k].body) else None
  }

  lemma {:induction false} MembersSplit(db: Tables, a: seq<Member>, b: seq<Member>)
    ensures StoreMembers(db, a + b) == StoreMembers(StoreMembers(db, a), b)
    decreases a
  {
    if a == [] {
      assert a + b == b;
    } else {
      var m := a[0];
      var db1 := if ObjectKind(m.kind) then Upsert(db, m.kind + ":" + m.rest, Object(m.body)) else db;
      MembersSplit(db1, a[1..], b);
      assert (a + b)[1..] == a[1..] + b;
    }
  }

  lemma OneMember(db: Tables, m: Member)
    ensures StoreMembers(db, [m]) == if ':' !in m.kind && m.kind != "list" then Upsert(db, m.kind + ":" + m.rest, Object(m.body)) else db
  {
    assert [m][1..] == [];
  }

  /** Of a response, each object is stored under its key with its body, the last where two share a key. */
  lemma {:induction false} MembersStored(db: Tables, members: seq<Member>, k: string)
    ensures ObjectAt(StoreMembers(db, members), k) ==
            if LastMember(members, k).Some? then LastMember(members, k) else ObjectAt(db, k)
    decreases members
  {
    if members != [] {
      var n := |members| - 1;
      MembersStored(db, members[..n], k);
      MembersSplit(db, members[..n], [members[n]]);
      OneMember(StoreMembers(db, members[..n]), members[n]);
      assert members == members[..n] + [members[n]];
    }
  }

  lemma ListPut(db: Tables, lk: string, body: string, comp: string, k: string)
    requires lk != k
    ensures ObjectAt(PutList(db, lk, body, comp), k) == ObjectAt(db, k)
  {}

  lemma QueryStores(ops: Ops, db: Tables, q: Step, k: string)
    requires q.Query? && KindOf(k) != "list"
    ensures ObjectAt(Next(ops, db, q), k) ==
            if Reaches(ops, db, q) && LastMember(q.members, k).Some? then LastMember(q.members, k) else ObjectAt(db, k)
  {
    if Reaches(ops, db, q) {
      var lk := KeyOf(q);
      ListKeyKind(q.op, ScopeOf(q.owner, q.repo));
      MembersStored(db, q.members, k);
      ListPut(StoreMembers(db, q.members), lk, Served(db, lk, q.upstream).value, Comp(ops[q.op], ScopeOf(q.owner, q.repo)), k);
    }
  }

  lemma EvictStores(ops: Ops, db: Tables, key: string, k: string)
    requires Indexed(ops, db) && KindOf(k) != "list"
    ensures ObjectAt(Purge(db, key), k) == if key == k then None else ObjectAt(db, k)
  {
    if k in db.nodes {
      PurgeSparesTheRest(ops, db, key, k);
      assert GithubStore.RowOk(ops, db, k);
    }
  }

  /** In every run, an object's key holds the body last stored for it, by itself or in a list, since it was last purged. */
  lemma {:induction false} ObjectsExactly(ops: Ops, steps: seq<Step>, k: string)
    requires OpsOk(ops) && KindOf(k) != "list"
    ensures ObjectAt(After(ops, steps), k) == LastStored(ops, steps, k)
    decreases steps
  {
    if steps != [] {
      var init, last := steps[..|steps| - 1], steps[|steps| - 1];
      ObjectsExactly(ops, init, k);
      AfterIndexed(ops, init);
      match last
      case StoreNode(_, _, _) =>
      case Query(_, _, _, _, _, _) => QueryStores(ops, After(ops, init), last, k);
      case Evict(key) => EvictStores(ops, After(ops, init), key, k);
    }
  }

  // ---------------------------------------------------------------- names

  /** A digit, a letter, a hyphen, a dot or an underscore, by its ASCII code. */
  predicate NameCode(n: int) { 48 <= n <= 57 || 65 <= n <= 90 || 97 <= n <= 122 || n == 45 || n == 46 || n == 95 }

  lemma CodesExactly(s: string)
    ensures (forall i :: 0 <= i < |s| ==> NameChar(s[i])) <==> forall i :: 0 <= i < |s| ==> NameCode(s[i] as int)
  {}

  lemma DotsExactly(s: string)
    ensures HasDotDot(s) <==> exists a, b :: s == a + ".." + b
  {
    if HasDotDot(s) {
      var i :| 0 <= i < |s| - 1 && s[i] == '.' && s[i + 1] == '.';
      assert s == s[..i] + ".." + s[i + 2..];
    }
    if a, b :| s == a + ".." + b {
      assert s[|a|] == '.' && s[|a| + 1] == '.';
    }
  }

  /** A name is let through if and only if it is empty, or made of those characters without two dots in a row. */
  lemma SafeNameExactly(s: string)
    ensures SafeName(s) <==> s == "" || ((forall i :: 0 <= i < |s| ==> NameCode(s[i] as int)) && !exists a, b :: s == a + ".." + b)
  {
    CodesExactly(s);
    DotsExactly(s);
  }
}
