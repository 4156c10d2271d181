/**
 * The key table in words (plugins/github/keys.go:39-58, 193-290): the text of every kind's key, and which key and
 * which lists each webhook event touches.
 */
module GithubEvents {
  import opened Options
  import opened Text
  import opened GithubKeys
  import opened GithubStore

  // ---------------------------------------------------------------- every kind's key

  /** The eleven kinds in order, each with the text of its key. */
  function KeyText(i: nat, g: Segments): string
    requires i < 11
  {
    var scope := g.owner + "/" + g.repo;
    if i == 0 then "issue:" + scope + "#" + g.disc
    else if i == 1 then "pr:" + scope + "#" + g.disc
    else if i == 2 then "checkRun:" + scope + "/" + g.disc
    else if i == 3 then "review:" + scope + "#" + g.disc + "/" + g.subid
    else if i == 4 then "comment:" + scope + "#" + g.disc + "/" + g.subid
    else if i == 5 then "label:" + scope + "/" + g.disc
    else if i == 6 then "release:" + scope + "/" + g.disc
    else if i == 7 then "commit:" + scope + "/" + g.disc
    else if i == 8 then "ref:" + scope + "/" + g.sub
    else if i == 9 then "repo:" + scope
    else "user:" + g.login
  }

  /** The text of each shape's key, after the kind and its colon. */
  lemma ShapeText(kind: string, head: string, sh: Shape, g: Segments)
    requires '{' !in kind && head == kind + ":"
    ensures var scope, key := g.owner + "/" + g.repo, BuildKey(kind, sh, g);
            && (sh == HashDisc ==> key == head + scope + "#" + g.disc)
            && (sh == SlashDisc ==> key == head + scope + "/" + g.disc)
            && (sh == HashSub ==> key == head + scope + "#" + g.disc + "/" + g.subid)
            && (sh == SlashTail ==> key == head + scope + "/" + g.sub)
            && (sh == Scope ==> key == head + scope)
            && (sh == User ==> key == head + g.login)
  {
    BuiltText(kind, sh, g);
    match sh
    case HashDisc => Grouped(head, g.owner, g.repo, "#" + g.disc);
    case SlashDisc => Grouped(head, g.owner, g.repo, "/" + g.disc);
    case HashSub => GroupedSub(head, g.owner, g.repo, g.disc, g.subid);
    case SlashTail => Grouped(head, g.owner, g.repo, "/" + g.sub);
    case Scope =>
    case User =>
  }

  lemma Grouped(head: string, o: string, r: string, tail: string)
    ensures head + (o + "/" + (r + tail)) == head + (o + "/" + r) + tail
    ensures |tail| > 0 ==> tail == [tail[0]] + tail[1..]
  {}

  lemma GroupedSub(head: string, o: string, r: string, d: string, x: string)
    ensures head + (o + "/" + (r + "#" + (d + "/" + x))) == head + (o + "/" + r) + "#" + d + "/" + x
  {}

  /** The key the table builds for each kind is that text. */
  lemma KindKeys(i: nat, g: Segments)
    requires i < 11
    ensures |KIND_SPECS| == 11 && BuildKey(KIND_SPECS[i].kind, KIND_SPECS[i].shape, g) == KeyText(i, g)
  {
    var s := KIND_SPECS[i];
    TableOk(i);
    Heads(i);
    ShapeText(s.kind, HeadOf(i), s.shape, g);
  }

  function HeadOf(i: nat): string
    requires i < 11
  {
    ["issue:", "pr:", "checkRun:", "review:", "comment:", "label:", "release:", "commit:", "ref:", "repo:", "user:"][i]
  }

  lemma Heads(i: nat)
    requires i < 11
    ensures KIND_SPECS[i].kind + ":" == HeadOf(i)
  {}

  /** The parts parseKey names in a key of each shape. */
  function PartsText(sh: Shape, g: Segments): map<string, string> {
    match sh
    case HashDisc => map["owner" := g.owner, "repo" := g.repo, "disc" := g.disc]
    case SlashDisc => map["owner" := g.owner, "repo" := g.repo, "sub" := g.disc, "disc" := g.disc]
    case HashSub => map["owner" := g.owner, "repo" := g.repo, "disc" := g.disc, "subid" := g.subid]
    case SlashTail => map["owner" := g.owner, "repo" := g.repo, "sub" := g.sub, "disc" := Cut(g.sub, '/').before]
    case Scope => map["owner" := g.owner, "repo" := g.repo]
    case User => map["login" := g.login]
  }

  /** With clean segments, those are the parts of every kind's key. */
  lemma KeyParts(kind: string, sh: Shape, g: Segments)
    requires ':' !in kind && '@' !in kind && '{' !in kind && (kind == "user" <==> sh == User) && Clean(sh, g)
    ensures ParseKey(BuildKey(kind, sh, g)) == PartsText(sh, g)
  {
    BuiltText(kind, sh, g);
    CleanHasNoAt(sh, g);
    KeySplits(kind, BodyText(sh, g));
    BodyIs(sh, g);
  }

  lemma BodyIs(sh: Shape, g: Segments)
    requires Clean(sh, g)
    ensures PartsOf(ParseBody(sh == User, BodyText(sh, g))) == PartsText(sh, g)
  {
    if sh == SlashDisc {
      SlashBody(g);
    } else {
      BodyParsed(sh, g);
      ReturnedParts(sh, ParseBody(sh == User, BodyText(sh, g)), g);
    }
  }

  lemma SlashBody(g: Segments)
    requires Clean(SlashDisc, g)
    ensures PartsOf(ParseBody(false, BodyText(SlashDisc, g))) == PartsText(SlashDisc, g)
  {
    ScopeParsed(g.owner, g.repo, '/', g.disc);
    NoSlash(g.disc);
    assert g.repo + ['/'] + g.disc == g.repo + "/" + g.disc;
  }

  lemma ReturnedParts(sh: Shape, b: Body, g: Segments)
    requires Returns(sh, b, g) && sh != SlashDisc
    ensures PartsOf(b) == PartsText(sh, g)
  {}

  lemma NoSlash(s: string)
    requires '/' !in s
    ensures Cut(s, '/').before == s
  {}

  // ---------------------------------------------------------------- the payload of a webhook

  predicate HasField(v: Json, name: string) { v.Obj? && name in v.fields }

  function At(v: Json, name: string): Json
    requires HasField(v, name)
  {
    v.fields[name]
  }

  /** The payload's repository: its full name, or else its name and its owner's login. */
  predicate Of(payload: Json, o: string, r: string) {
    HasField(payload, "repository") &&
    var repo := At(payload, "repository");
    if HasField(repo, "full_name") && At(repo, "full_name").Str? && '/' in At(repo, "full_name").s
    then '/' !in o && At(repo, "full_name").s == o + "/" + r
    else && HasField(repo, "name") && At(repo, "name") == Str(r)
         && HasField(repo, "owner") && HasField(At(repo, "owner"), "login") && At(At(repo, "owner"), "login") == Str(o)
  }

  /** How a discriminator reads: a number in decimal, a text as it is. */
  predicate Reads(v: Json, text: string) {
    match v
    case Int(n) => text == Itoa(n)
    case Str(s) => text == s && s != ""
    case Bool(b) => text == if b then "true" else "false"
    case Frac(t) => text == t && t != ""
    case _ => false
  }

  predicate Carries(payload: Json, obj: string, field: string, text: string) {
    HasField(payload, obj) && HasField(At(payload, obj), field) && Reads(At(At(payload, obj), field), text)
  }

  /** An issue comment whose issue is a pull request. */
  predicate OnPr(payload: Json) { HasField(payload, "issue") && HasField(At(payload, "issue"), "pull_request") }

  lemma OfIsName(payload: Json, o: string, r: string)
    requires Of(payload, o, r)
    ensures RepoFullName(payload) == FullName(o, r)
  {
    CutJoined(if '/' in o then "" else o, '/', r);
  }

  lemma CarriesIsDisc(payload: Json, obj: string, field: string, text: string, show: Json -> string)
    requires Carries(payload, obj, field, text)
    ensures DiscField(payload, obj, field, show) == Some(text)
  {}

  // ---------------------------------------------------------------- which key an event touches

  /** What the table says of an event. */
  datatype Row = Row(kind: string, shape: Shape, obj: string, field: string)

  predicate Has(event: string, row: Row) {
    var s := SpecByEvent(event, 0);
    s.Some? && s.value.kind == row.kind && s.value.shape == row.shape && s.value.obj == row.obj && s.value.field == row.field
  }

  /** The first row whose events hold the event is its row. */
  lemma {:induction false} RowIs(event: string, i: nat, j: nat)
    requires i <= j < |KIND_SPECS| && event in KIND_SPECS[j].events
    requires forall k :: i <= k < j ==> event !in KIND_SPECS[k].events
    ensures SpecByEvent(event, i) == Some(KIND_SPECS[j])
    decreases j - i
  {
    if i < j {
      RowIs(event, i + 1, j);
    }
  }

  lemma {:induction false} NoRow(event: string, i: nat)
    requires i <= |KIND_SPECS| && forall k :: i <= k < |KIND_SPECS| ==> event !in KIND_SPECS[k].events
    ensures SpecByEvent(event, i) == None
    decreases |KIND_SPECS| - i
  {
    if i < |KIND_SPECS| {
      NoRow(event, i + 1);
    }
  }

  lemma IssueRow(event: string)
    requires event in {"issues", "issue_comment"}
    ensures Has(event, Row("issue", HashDisc, "issue", "number"))
  {
    RowIs(event, 0, 0);
  }

  lemma PrRow(event: string)
    requires event in {"pull_request", "pull_request_review", "pull_request_review_comment"}
    ensures Has(event, Row("pr", HashDisc, "pull_request", "number"))
  {
    assert |"issues"| == 6 && |"issue_comment"| == 13 && "pull_request"[0] == 'p';
    RowIs(event, 0, 1);
  }

  lemma CheckRow()
    ensures Has("check_run", Row("checkRun", SlashDisc, "check_run", "id"))
  {
    assert "check_run"[0] == 'c';
    RowIs("check_run", 0, 2);
  }

  lemma LabelRow()
    ensures Has("label", Row("label", SlashDisc, "label", "name"))
  {
    assert "label"[0] == 'l' && |"label"| == 5;
    RowIs("label", 0, 5);
  }

  lemma ReleaseRow()
    ensures Has("release", Row("release", SlashDisc, "release", "tag_name"))
  {
    assert "release"[0] == 'r' && |"release"| == 7;
    RowIs("release", 0, 6);
  }

  const MAPPED: set<string> := {"issues", "issue_comment", "pull_request", "pull_request_review", "pull_request_review_comment",
                                "check_run", "label", "release"}

  lemma KeyIs(event: string, payload: Json, show: Json -> string, o: string, r: string, row: Row, disc: string, kind: string, head: string)
    requires Of(payload, o, r) && SafeName(o) && SafeName(r) && o != "" && r != ""
    requires Has(event, row) && Carries(payload, row.obj, row.field, disc)
    requires kind == (if IsPrComment(event, payload) then "pr" else row.kind) && '{' !in kind && head == kind + ":"
    ensures var sh := if IsPrComment(event, payload) then HashDisc else row.shape;
            && (sh == HashDisc ==> EventKey(event, payload, show) == Some(head + o + "/" + r + "#" + disc))
            && (sh == SlashDisc ==> EventKey(event, payload, show) == Some(head + o + "/" + r + "/" + disc))
  {
    OfIsName(payload, o, r);
    CarriesIsDisc(payload, row.obj, row.field, disc, show);
    var n, sh := FullName(o, r), if IsPrComment(event, payload) then HashDisc else row.shape;
    if sh == HashDisc || sh == SlashDisc {
      FewPartsSuffice(kind, sh, n, disc);
      ShapeText(kind, head, sh, RepoSegments(n, disc));
      Scoped(head, o, r);
    }
  }

  lemma Scoped(head: string, o: string, r: string)
    ensures head + (o + "/" + r) == head + o + "/" + r
  {}

  lemma IsOnPr(event: string, payload: Json)
    ensures IsPrComment(event, payload) <==> event == "issue_comment" && OnPr(payload)
  {}

  // The key of every mapped event, in full, for a payload of a repository with safe names that carries the event's
  // discriminator.

  lemma IssueKey(event: string, payload: Json, show: Json -> string, o: string, r: string, disc: string)
    requires Of(payload, o, r) && SafeName(o) && SafeName(r) && o != "" && r != ""
    requires event in {"issues", "issue_comment"} && Carries(payload, "issue", "number", disc)
    ensures var head := if event == "issue_comment" && OnPr(payload) then "pr:" else "issue:";
            EventKey(event, payload, show) == Some(head + o + "/" + r + "#" + disc)
  {
    IssueRow(event);
    IsOnPr(event, payload);
    var row := Row("issue", HashDisc, "issue", "number");
    if IsPrComment(event, payload) {
      KeyIs(event, payload, show, o, r, row, disc, "pr", "pr:");
    } else {
      KeyIs(event, payload, show, o, r, row, disc, "issue", "issue:");
    }
  }

  lemma PullRequestKey(event: string, payload: Json, show: Json -> string, o: string, r: string, disc: string)
    requires Of(payload, o, r) && SafeName(o) && SafeName(r) && o != "" && r != ""
    requires event in {"pull_request", "pull_request_review", "pull_request_review_comment"}
    requires Carries(payload, "pull_request", "number", disc)
    ensures EventKey(event, payload, show) == Some("pr:" + o + "/" + r + "#" + disc)
  {
    PrRow(event);
    KeyIs(event, payload, show, o, r, Row("pr", HashDisc, "pull_request", "number"), disc, "pr", "pr:");
  }

  lemma CheckRunKey(payload: Json, show: Json -> string, o: string, r: string, disc: string)
    requires Of(payload, o, r) && SafeName(o) && SafeName(r) && o != "" && r != ""
    requires Carries(payload, "check_run", "id", disc)
    ensures EventKey("check_run", payload, show) == Some("checkRun:" + o + "/" + r + "/" + disc)
  {
    CheckRow();
    KeyIs("check_run", payload, show, o, r, Row("checkRun", SlashDisc, "check_run", "id"), disc, "checkRun", "checkRun:");
  }

  lemma LabelKey(payload: Json, show: Json -> string, o: string, r: string, disc: string)
    requires Of(payload, o, r) && SafeName(o) && SafeName(r) && o != "" && r != ""
    requires Carries(payload, "label", "name", disc)
    ensures EventKey("label", payload, show) == Some("label:" + o + "/" + r + "/" + disc)
  {
    LabelRow();
    KeyIs("label", payload, show, o, r, Row("label", SlashDisc, "label", "name"), disc, "label", "label:");
  }

  lemma ReleaseKey(payload: Json, show: Json -> string, o: string, r: string, disc: string)
    requires Of(payload, o, r) && SafeName(o) && SafeName(r) && o != "" && r != ""
    requires Carries(payload, "release", "tag_name", disc)
    ensures EventKey("release", payload, show) == Some("release:" + o + "/" + r + "/" + disc)
  {
    ReleaseRow();
    KeyIs("release", payload, show, o, r, Row("release", SlashDisc, "release", "tag_name"), disc, "release", "release:");
  }

  /** No key for an event outside the table, for a name that is empty or not safe, or without the discriminator. */
  lemma NoEventKey(event: string, payload: Json, show: Json -> string)
    ensures event !in MAPPED ==> EventKey(event, payload, show) == None
    ensures forall o, r :: Of(payload, o, r) && (o == "" || r == "" || !SafeName(o) || !SafeName(r)) ==> EventKey(event, payload, show) == None
    ensures !HasField(payload, "repository") ==> EventKey(event, payload, show) == None
  {
    if event !in MAPPED {
      NoRow(event, 0);
    }
    forall o, r | Of(payload, o, r) ensures RepoFullName(payload) == FullName(o, r) {
      OfIsName(payload, o, r);
    }
  }

  // ---------------------------------------------------------------- what a whole webhook purges

  /** The kind of the row an event is in. */
  function RowKind(event: string): string {
    if event == "issues" || event == "issue_comment" then "issue"
    else if event == "check_run" then "checkRun"
    else if event == "label" then "label"
    else if event == "release" then "release"
    else "pr"
  }

  /** The kind of the key an event touches. */
  function TouchedKind(event: string, payload: Json): string {
    if event == "issue_comment" && OnPr(payload) then "pr" else RowKind(event)
  }

  predicate KindIs(event: string) { SpecByEvent(event, 0).Some? && SpecByEvent(event, 0).value.kind == RowKind(event) }

  lemma IssueKind(event: string)
    requires event in {"issues", "issue_comment"}
    ensures KindIs(event)
  {
    IssueRow(event);
  }

  lemma PrKind(event: string)
    requires event in {"pull_request", "pull_request_review", "pull_request_review_comment"}
    ensures KindIs(event)
  {
    PrRow(event);
  }

  lemma OtherKinds()
    ensures KindIs("check_run") && KindIs("label") && KindIs("release")
  {
    CheckRow();
    LabelRow();
    ReleaseRow();
  }

  lemma RowKindIs(event: string)
    requires event in MAPPED
    ensures KindIs(event)
  {
    if event == "issues" || event == "issue_comment" {
      IssueKind(event);
    } else if event == "check_run" || event == "label" || event == "release" {
      OtherKinds();
    } else {
      PrKind(event);
    }
  }

  lemma KindTouched(event: string, payload: Json, show: Json -> string)
    requires EventKey(event, payload, show).Some?
    ensures event in MAPPED && KindOf(EventKey(event, payload, show).value) == TouchedKind(event, payload)
  {
    NoEventKey(event, payload, show);
    RowKindIs(event);
    IsOnPr(event, payload);
    EventKeyParses(event, payload, show);
  }

  /** These entries name these pull requests. */
  predicate Numbers(items: seq<Json>, ns: seq<int>) {
    |items| == |ns| && forall i :: 0 <= i < |ns| ==> HasField(items[i], "number") && At(items[i], "number") == Int(ns[i])
  }

  /** The check run of the payload names these pull requests. */
  predicate Lists(payload: Json, ns: seq<int>) {
    HasField(payload, "check_run") && HasField(At(payload, "check_run"), "pull_requests") &&
    var prs := At(At(payload, "check_run"), "pull_requests");
    prs.Arr? && Numbers(prs.items, ns)
  }

  function PrKeys(o: string, r: string, ns: seq<int>): seq<string> {
    if ns == [] then [] else ["pr:" + o + "/" + r + "#" + Itoa(ns[0])] + PrKeys(o, r, ns[1..])
  }

  lemma {:induction false} NumbersRead(items: seq<Json>, ns: seq<int>, show: Json -> string, o: string, r: string)
    requires Numbers(items, ns)
    ensures |PrNumbers(items, show)| == |ns|
    ensures KeysFor(Keyfmt("pr", HashDisc), FullName(o, r), PrNumbers(items, show)) == PrKeys(o, r, ns)
    decreases items
  {
    if items != [] {
      NumbersRead(items[1..], ns[1..], show, o, r);
      PrKeyText(o, r, Itoa(ns[0]));
      var rest := PrNumbers(items[1..], show);
      assert PrNumber(items[0], show) == Itoa(ns[0]);
      assert PrNumbers(items, show) == [Itoa(ns[0])] + rest;
      assert ([Itoa(ns[0])] + rest)[1..] == rest;
    }
  }

  lemma PrKeyText(o: string, r: string, disc: string)
    ensures EventKeyOf(Keyfmt("pr", HashDisc), FullName(o, r), disc) == "pr:" + o + "/" + r + "#" + disc
  {
    FewPartsSuffice("pr", HashDisc, FullName(o, r), disc);
    ShapeText("pr", "pr:", HashDisc, RepoSegments(FullName(o, r), disc));
    Scoped("pr:", o, r);
  }

  /** A check run purges, besides its own, the key of every pull request it names; no other event purges a second key. */
  lemma RelatedKeysText(event: string, payload: Json, show: Json -> string, o: string, r: string, ns: seq<int>)
    requires Of(payload, o, r) && SafeName(o) && SafeName(r) && o != "" && r != ""
    ensures event != "check_run" ==> RelatedNumbers(event, payload, show) == []
    ensures event == "check_run" && Lists(payload, ns) ==>
              && |RelatedNumbers(event, payload, show)| == |ns|
              && KeysFor(Keyfmt("pr", HashDisc), RepoFullName(payload), RelatedNumbers(event, payload, show)) == PrKeys(o, r, ns)
  {
    OfIsName(payload, o, r);
    if event == "check_run" && Lists(payload, ns) {
      NumbersRead(At(At(payload, "check_run"), "pull_requests").items, ns, show, o, r);
    }
  }

  /** The list is of that repository, and its op lists that kind first. */
  predicate ListOf(ops: Ops, op: string, owner: Option<string>, repo: Option<string>, o: string, r: string, kind: string) {
    op in ops && owner == Some(o) && repo == Some(r) && |ops[op]| > 0 && ops[op][0] == kind
  }

  /**
   * After a webhook, a stored list is gone if and only if it is of the webhook's repository and lists first the
   * kind its event touches, or pull requests when it is a check run that names some.
   */
  lemma WebhookEvicts(ops: Ops, db: Tables, event: string, payload: Json, show: Json -> string, o: string, r: string,
                      ns: seq<int>, op: string, owner: Option<string>, repo: Option<string>)
    requires OpsOk(ops) && Indexed(ops, db) && EventKey(event, payload, show).Some?
    requires op in ops && Allowed(owner) && Allowed(repo)
    requires Of(payload, o, r) && SafeName(o) && SafeName(r) && o != "" && r != ""
    requires event == "check_run" ==> Lists(payload, ns)
    ensures var related := if event == "check_run" then PrKeys(o, r, ns) else [];
            Holds(WebhookPurge(db, EventKey(event, payload, show).value, related), op, owner, repo) <==>
            && Holds(db, op, owner, repo)
            && !ListOf(ops, op, owner, repo, o, r, TouchedKind(event, payload))
            && !(event == "check_run" && |ns| > 0 && ListOf(ops, op, owner, repo, o, r, "pr"))
  {
    OfIsName(payload, o, r);
    KindTouched(event, payload, show);
    RelatedKeysText(event, payload, show, o, r, ns);
    WebhookEvictsExactly(ops, db, event, payload, show, op, owner, repo);
  }
}
