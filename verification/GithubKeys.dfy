/** plugins/github/keys.go: the table-driven cache key grammar. */
module GithubKeys {
  import opened Options
  import opened Text

  // ---------------------------------------------------------------- templates

  predicate IsLetter(c: char) { 'a' <= c <= 'z' || 'A' <= c <= 'Z' }

  function Letters(s: string): (n: nat)
    ensures n <= |s|
    ensures forall i :: 0 <= i < n ==> IsLetter(s[i])
    ensures n < |s| ==> !IsLetter(s[n])
  {
    if s == "" || !IsLetter(s[0]) then 0 else 1 + Letters(s[1..])
  }

  /** The name of a placeholder `{name}` standing at the front, as the placeholder pattern matches it. */
  function Placeholder(s: string): (r: Option<string>)
    ensures r.Some? ==> |r.value| + 2 <= |s|
  {
    if s == "" || s[0] != '{' then None
    else
      var n := Letters(s[1..]);
      if n > 0 && n + 1 < |s| && s[n + 1] == '}' then Some(s[1..n + 1]) else None
  }

  /** fill on template text: a placeholder that names a part becomes that part, everything else is copied. */
  function Fill(template: string, parts: map<string, string>): string
    decreases |template|
  {
    if template == "" then ""
    else
      match Placeholder(template)
      case None => [template[0]] + Fill(template[1..], parts)
      case Some(name) =>
        (if name in parts then parts[name] else template[..|name| + 2]) + Fill(template[|name| + 2..], parts)
  }

  /** A template read as literal text and holes; Render gives back its text. */
  datatype Template = End | Lit(text: string, rest: Template) | Hole(name: string, rest: Template)

  function Render(t: Template): string {
    match t
    case End => ""
    case Lit(text, rest) => text + Render(rest)
    case Hole(name, rest) => "{" + name + "}" + Render(rest)
  }

  function Subst(t: Template, parts: map<string, string>): string {
    match t
    case End => ""
    case Lit(text, rest) => text + Subst(rest, parts)
    case Hole(name, rest) => (if name in parts then parts[name] else "{" + name + "}") + Subst(rest, parts)
  }

  predicate Name(s: string) { s != "" && forall i :: 0 <= i < |s| ==> IsLetter(s[i]) }

  predicate WellFormed(t: Template) {
    match t
    case End => true
    case Lit(text, rest) => '{' !in text && WellFormed(rest)
    case Hole(name, rest) => Name(name) && WellFormed(rest)
  }

  lemma FillChar(c: char, rest: string, parts: map<string, string>)
    requires c != '{'
    ensures Fill([c] + rest, parts) == [c] + Fill(rest, parts)
  {
    assert ([c] + rest)[1..] == rest;
  }

  lemma {:induction false} FillLiteral(lit: string, rest: string, parts: map<string, string>)
    requires '{' !in lit
    ensures Fill(lit + rest, parts) == lit + Fill(rest, parts)
  {
    if lit == "" {
      assert lit + rest == rest;
    } else {
      FillLiteral(lit[1..], rest, parts);
      FillChar(lit[0], lit[1..] + rest, parts);
      HeadOff(lit, rest);
      HeadOff(lit, Fill(rest, parts));
    }
  }

  lemma HeadOff(a: string, b: string)
    requires a != ""
    ensures a + b == [a[0]] + (a[1..] + b)
  {}

  lemma {:induction false} LettersOf(name: string, rest: string)
    requires forall i :: 0 <= i < |name| ==> IsLetter(name[i])
    requires rest != "" && !IsLetter(rest[0])
    ensures Letters(name + rest) == |name|
  {
    if name == "" {
      assert name + rest == rest;
    } else {
      assert (name + rest)[1..] == name[1..] + rest;
      LettersOf(name[1..], rest);
    }
  }

  lemma HoleFound(name: string, rest: string)
    requires Name(name)
    ensures Placeholder("{" + name + "}" + rest) == Some(name)
  {
    var t := "{" + name + "}" + rest;
    assert t[1..] == name + ("}" + rest);
    LettersOf(name, "}" + rest);
    assert t[|name| + 1] == '}';
    assert t[1..|name| + 1] == name;
  }

  lemma FillHole(name: string, rest: string, parts: map<string, string>)
    requires Name(name)
    ensures Fill("{" + name + "}" + rest, parts) == (if name in parts then parts[name] else "{" + name + "}") + Fill(rest, parts)
  {
    HoleFound(name, rest);
    var t := "{" + name + "}" + rest;
    assert t[|name| + 2..] == rest;
    assert t[..|name| + 2] == "{" + name + "}";
  }

  /** The pattern-driven replacement on the text does what the template says. */
  lemma {:induction false} FillIsSubst(t: Template, parts: map<string, string>)
    requires WellFormed(t)
    ensures Fill(Render(t), parts) == Subst(t, parts)
  {
    match t
    case End =>
    case Lit(text, rest) =>
      FillLiteral(text, Render(rest), parts);
      FillIsSubst(rest, parts);
    case Hole(name, rest) =>
      FillHole(name, Render(rest), parts);
      FillIsSubst(rest, parts);
  }

  // ---------------------------------------------------------------- parsing

  function KindOf(key: string): string {
    var i := IndexOf(key, ':');
    if i >= 0 then key[..i] else ""
  }

  function StripHost(key: string): string {
    var at := LastIndexOf(key, '@');
    if at >= 0 then key[..at] else key
  }

  function AfterColon(s: string): string {
    var i := IndexOf(s, ':');
    if i >= 0 then s[i + 1..] else s
  }

  /** strings.IndexAny(s, "#/"). */
  function IndexHashSlash(s: string): (i: int)
    ensures -1 <= i < |s|
    ensures i >= 0 ==> (s[i] == '#' || s[i] == '/') && '#' !in s[..i] && '/' !in s[..i]
    ensures i < 0 ==> '#' !in s && '/' !in s
  {
    var h, l := IndexOf(s, '#'), IndexOf(s, '/');
    if h < 0 then l
    else if l < 0 then h
    else if h < l then assert s[..h] == s[..l][..h]; h
    else assert s[..l] == s[..h][..l]; l
  }

  /** What the separators of the grammar say about a key's body. */
  datatype Body =
    | Login(login: string)
    | RepoOnly(owner: string, repo: string)
    | Numbered(owner: string, repo: string, disc: string)
    | Nested(owner: string, repo: string, disc: string, subid: string)
    | Tail(owner: string, repo: string, sub: string)

  function ParseBody(user: bool, rest: string): Body {
    if user then Login(rest)
    else
      var c := Cut(rest, '/');
      var ri := IndexHashSlash(c.after);
      if ri < 0 then RepoOnly(c.before, c.after)
      else
        var repo, rem := c.after[..ri], c.after[ri + 1..];
        if c.after[ri] == '#' then
          var d := Cut(rem, '/');
          if d.found then Nested(c.before, repo, d.before, d.after) else Numbered(c.before, repo, rem)
        else Tail(c.before, repo, rem)
  }

  function Parse(key: string): Body { ParseBody(KindOf(key) == "user", AfterColon(StripHost(key))) }

  /** The parts parseKey names. */
  function PartsOf(b: Body): map<string, string> {
    match b
    case Login(login) => map["login" := login]
    case RepoOnly(o, r) => map["owner" := o, "repo" := r]
    case Numbered(o, r, d) => map["owner" := o, "repo" := r, "disc" := d]
    case Nested(o, r, d, s) => map["owner" := o, "repo" := r, "disc" := d, "subid" := s]
    case Tail(o, r, sub) => map["owner" := o, "repo" := r, "sub" := sub, "disc" := Cut(sub, '/').before]
  }

  function ParseKey(key: string): map<string, string> { PartsOf(Parse(key)) }

  // ---------------------------------------------------------------- the kind table

  /** The six shapes a key can have after its kind, with the named segments each carries. */
  datatype Shape = HashDisc | SlashDisc | HashSub | SlashTail | Scope | User

  datatype Segments = Segments(owner: string, repo: string, disc: string, subid: string, sub: string, login: string)

  function PartMap(g: Segments): map<string, string> {
    map["owner" := g.owner, "repo" := g.repo, "disc" := g.disc, "subid" := g.subid, "sub" := g.sub, "login" := g.login]
  }

  /** The key template of a kind: its name, a colon, and the scope and discriminators of its shape. */
  function Keyfmt(kind: string, sh: Shape): Template {
    match sh
    case HashDisc => Lit(kind + ":", Hole("owner", Lit("/", Hole("repo", Lit("#", Hole("disc", End))))))
    case SlashDisc => Lit(kind + ":", Hole("owner", Lit("/", Hole("repo", Lit("/", Hole("disc", End))))))
    case HashSub => Lit(kind + ":", Hole("owner", Lit("/", Hole("repo", Lit("#", Hole("disc", Lit("/", Hole("subid", End))))))))
    case SlashTail => Lit(kind + ":", Hole("owner", Lit("/", Hole("repo", Lit("/", Hole("sub", End))))))
    case Scope => Lit(kind + ":", Hole("owner", Lit("/", Hole("repo", End))))
    case User => Lit(kind + ":", Hole("login", End))
  }

  /** One row of kindSpecs: kind, shape of keyfmt, webhook events, payload object and field of the discriminator. */
  datatype KindSpec = KindSpec(kind: string, shape: Shape, events: seq<string>, obj: string, field: string)

  const KIND_SPECS: seq<KindSpec> := [
    KindSpec("issue", HashDisc, ["issues", "issue_comment"], "issue", "number"),
    KindSpec("pr", HashDisc, ["pull_request", "pull_request_review", "pull_request_review_comment"], "pull_request", "number"),
    KindSpec("checkRun", SlashDisc, ["check_run"], "check_run", "id"),
    KindSpec("review", HashSub, [], "", ""),
    KindSpec("comment", HashSub, [], "", ""),
    KindSpec("label", SlashDisc, ["label"], "label", "name"),
    KindSpec("release", SlashDisc, ["release"], "release", "tag_name"),
    KindSpec("commit", SlashDisc, [], "", ""),
    KindSpec("ref", SlashTail, [], "", ""),
    KindSpec("repo", Scope, [], "", ""),
    KindSpec("user", User, [], "", "")
  ]

  /** What a row must be for the grammar to work. */
  predicate RowOk(s: KindSpec) {
    && ':' !in s.kind && '@' !in s.kind && '{' !in s.kind
    && (s.kind == "user" <==> s.shape == User)
  }

  lemma RowOkWhen(s: KindSpec)
    requires forall i :: 0 <= i < |s.kind| ==> IsLetter(s.kind[i])
    requires s.kind == "user" <==> s.shape == User
    ensures RowOk(s)
  {}

  lemma TableOk(i: nat)
    requires i < |KIND_SPECS|
    ensures RowOk(KIND_SPECS[i])
  {
    var s := KIND_SPECS[i];
    assert |s.kind| == 4 ==> i == 9 || i == 10;
    assert KIND_SPECS[9].kind[0] == 'r';
    RowOkWhen(s);
  }

  /** The key a kind gives its segments. */
  function BuildKey(kind: string, sh: Shape, g: Segments): string { Fill(Render(Keyfmt(kind, sh)), PartMap(g)) }

  /** The text after the kind and its colon. */
  function BodyText(sh: Shape, g: Segments): string {
    match sh
    case HashDisc => g.owner + "/" + (g.repo + "#" + g.disc)
    case SlashDisc => g.owner + "/" + (g.repo + "/" + g.disc)
    case HashSub => g.owner + "/" + (g.repo + "#" + (g.disc + "/" + g.subid))
    case SlashTail => g.owner + "/" + (g.repo + "/" + g.sub)
    case Scope => g.owner + "/" + g.repo
    case User => g.login
  }

  lemma Names()
    ensures Name("owner") && Name("repo") && Name("disc") && Name("subid") && Name("sub") && Name("login")
  {}

  lemma KeyfmtWellFormed(kind: string, sh: Shape)
    requires '{' !in kind
    ensures WellFormed(Keyfmt(kind, sh))
  {
    Names();
    assert '{' !in kind + ":";
    match sh
    case HashSub => assert WellFormed(Lit("#", Hole("disc", Lit("/", Hole("subid", End)))));
    case HashDisc => assert WellFormed(Lit("#", Hole("disc", End)));
    case SlashDisc => assert WellFormed(Lit("/", Hole("disc", End)));
    case SlashTail => assert WellFormed(Lit("/", Hole("sub", End)));
    case Scope =>
    case User =>
  }

  lemma SubstScope(rest: Template, p: map<string, string>)
    requires "owner" in p && "repo" in p
    ensures Subst(Hole("owner", Lit("/", Hole("repo", rest))), p) == p["owner"] + "/" + (p["repo"] + Subst(rest, p))
  {
    assert Subst(Lit("/", Hole("repo", rest)), p) == "/" + (p["repo"] + Subst(rest, p));
  }

  lemma SubstOne(lit: string, name: string, p: map<string, string>)
    requires name in p
    ensures Subst(Lit(lit, Hole(name, End)), p) == lit + p[name]
  {
    assert Subst(Hole(name, End), p) == p[name] + "";
  }

  lemma SubstBody(kind: string, sh: Shape, g: Segments)
    ensures Subst(Keyfmt(kind, sh), PartMap(g)) == kind + ":" + BodyText(sh, g)
  {
    var p := PartMap(g);
    match sh
    case HashDisc =>
      SubstScope(Lit("#", Hole("disc", End)), p);
      SubstOne("#", "disc", p);
      assert g.repo + ("#" + g.disc) == g.repo + "#" + g.disc;
    case SlashDisc =>
      SubstScope(Lit("/", Hole("disc", End)), p);
      SubstOne("/", "disc", p);
      assert g.repo + ("/" + g.disc) == g.repo + "/" + g.disc;
    case HashSub =>
      var inner := Hole("disc", Lit("/", Hole("subid", End)));
      SubstScope(Lit("#", inner), p);
      SubstOne("/", "subid", p);
      assert Subst(inner, p) == g.disc + ("/" + g.subid) == g.disc + "/" + g.subid;
      assert g.repo + ("#" + Subst(inner, p)) == g.repo + "#" + Subst(inner, p);
    case SlashTail =>
      SubstScope(Lit("/", Hole("sub", End)), p);
      SubstOne("/", "sub", p);
      assert g.repo + ("/" + g.sub) == g.repo + "/" + g.sub;
    case Scope =>
      SubstScope(End, p);
      assert g.repo + "" == g.repo;
    case User =>
      SubstOne(kind + ":", "login", p);
  }

  lemma BuiltText(kind: string, sh: Shape, g: Segments)
    requires '{' !in kind
    ensures BuildKey(kind, sh, g) == kind + ":" + BodyText(sh, g)
  {
    KeyfmtWellFormed(kind, sh);
    FillIsSubst(Keyfmt(kind, sh), PartMap(g));
    SubstBody(kind, sh, g);
  }

  // ---------------------------------------------------------------- the round trip

  predicate SegmentOk(s: string) { '/' !in s && '@' !in s }

  predicate RepoOk(s: string) { '#' !in s && '/' !in s && '@' !in s }

  /** Exactly what the grammar asks of the segments of each shape. */
  predicate Clean(sh: Shape, g: Segments) {
    match sh
    case HashDisc => SegmentOk(g.owner) && RepoOk(g.repo) && SegmentOk(g.disc)
    case SlashDisc => SegmentOk(g.owner) && RepoOk(g.repo) && SegmentOk(g.disc)
    case HashSub => SegmentOk(g.owner) && RepoOk(g.repo) && SegmentOk(g.disc) && '@' !in g.subid
    case SlashTail => SegmentOk(g.owner) && RepoOk(g.repo) && '@' !in g.sub
    case Scope => SegmentOk(g.owner) && RepoOk(g.repo)
    case User => '@' !in g.login
  }

  /** The parsed body that carries exactly the shape's segments. */
  predicate Returns(sh: Shape, b: Body, g: Segments) {
    match sh
    case HashDisc => b == Numbered(g.owner, g.repo, g.disc)
    case SlashDisc => b.Tail? && b.owner == g.owner && b.repo == g.repo && Cut(b.sub, '/').before == g.disc
    case HashSub => b == Nested(g.owner, g.repo, g.disc, g.subid)
    case SlashTail => b == Tail(g.owner, g.repo, g.sub)
    case Scope => b == RepoOnly(g.owner, g.repo)
    case User => b == Login(g.login)
  }

  lemma FirstHashSlash(repo: string, c: char, rest: string)
    requires '#' !in repo && '/' !in repo && (c == '#' || c == '/')
    ensures IndexHashSlash(repo + [c] + rest) == |repo|
  {
    var s := repo + [c] + rest;
    assert s[|repo|] == c;
    assert forall j :: 0 <= j < |repo| ==> s[j] == repo[j];
    var i := IndexHashSlash(s);
    assert s[|repo|] in s;
    assert i >= |repo|;
    assert forall j :: |repo| < j <= |s| ==> s[..j][|repo|] == c;
  }

  lemma ScopeParsed(owner: string, repo: string, c: char, rest: string)
    requires '/' !in owner && '#' !in repo && '/' !in repo && (c == '#' || c == '/')
    ensures var b := ParseBody(false, owner + "/" + (repo + [c] + rest));
            && (c == '/' ==> b == Tail(owner, repo, rest))
            && (c == '#' && '/' !in rest ==> b == Numbered(owner, repo, rest))
            && (c == '#' && '/' in rest ==> b == Nested(owner, repo, Cut(rest, '/').before, Cut(rest, '/').after))
  {
    var tail := repo + [c] + rest;
    CutJoined(owner, '/', tail);
    FirstHashSlash(repo, c, rest);
    assert tail[..|repo|] == repo && tail[|repo| + 1..] == rest;
  }

  lemma BodyParsed(sh: Shape, g: Segments)
    requires Clean(sh, g)
    ensures Returns(sh, ParseBody(sh == User, BodyText(sh, g)), g)
  {
    match sh
    case HashDisc => ScopeParsed(g.owner, g.repo, '#', g.disc);
    case SlashDisc => ScopeParsed(g.owner, g.repo, '/', g.disc);
    case HashSub =>
      var rest := g.disc + "/" + g.subid;
      ScopeParsed(g.owner, g.repo, '#', rest);
      CutJoined(g.disc, '/', g.subid);
      assert rest[|g.disc|] == '/';
    case SlashTail => ScopeParsed(g.owner, g.repo, '/', g.sub);
    case Scope => CutJoined(g.owner, '/', g.repo);
    case User =>
  }

  /** A key's body, or less of it when an '@' sits in a segment. */
  lemma KeySplits(kind: string, body: string)
    requires ':' !in kind && '@' !in kind
    ensures KindOf(kind + ":" + body) == kind
    ensures AfterColon(StripHost(kind + ":" + body)) == if '@' in body then body[..LastIndexOf(body, '@')] else body
  {
    CutJoined(kind, ':', body);
    var b := LastIndexOf(body, '@');
    StripBody(kind + ":", body);
    SplitColon(kind, if '@' in body then body[..b] else body);
  }

  lemma StripBody(head: string, body: string)
    requires '@' !in head
    ensures StripHost(head + body) == head + if '@' in body then body[..LastIndexOf(body, '@')] else body
  {
    LastAt(head, body);
    var b := LastIndexOf(body, '@');
    if b >= 0 {
      assert (head + body)[..|head| + b] == head + body[..b];
    }
  }

  lemma SplitColon(kind: string, body: string)
    requires ':' !in kind
    ensures AfterColon(kind + ":" + body) == body
  {
    var s := kind + ":" + body;
    CutJoined(kind, ':', body);
    assert s[IndexOf(s, ':') + 1..] == body;
  }

  lemma LastAt(head: string, body: string)
    requires '@' !in head
    ensures LastIndexOf(head + body, '@') == if '@' in body then |head| + LastIndexOf(body, '@') else -1
  {
    var s := head + body;
    var at := LastIndexOf(s, '@');
    var b := LastIndexOf(body, '@');
    assert forall i :: 0 <= i < |head| ==> s[i] == head[i];
    assert forall i :: |head| <= i < |s| ==> s[i] == body[i - |head|];
    if b >= 0 {
      assert s[|head| + b] == '@';
      assert forall j :: b < j < |body| ==> body[j] == body[b + 1..][j - b - 1];
      assert forall i :: |head| + b < i < |s| ==> s[i] != '@';
      assert at >= |head| + b ;
    } else {
      assert forall i :: 0 <= i < |s| ==> s[i] != '@';
    }
  }

  /** What is known of a body from the parts it was split into. */
  predicate Accounts(b: Body, rest: string) {
    match b
    case Login(l) => l == rest
    case RepoOnly(o, r) => '/' !in o && '#' !in r && '/' !in r && (rest == o + "/" + r || (rest == o && r == ""))
    case Numbered(o, r, d) => |rest| == |o| + |r| + |d| + 2 && '/' !in o && '#' !in r && '/' !in r && '/' !in d
    case Nested(o, r, d, s) => |rest| == |o| + |r| + |d| + |s| + 3 && '/' !in o && '#' !in r && '/' !in r && '/' !in d
    case Tail(o, r, s) => |rest| == |o| + |r| + |s| + 2 && '/' !in o && '#' !in r && '/' !in r
  }

  /** Parsing accounts for every character of the body it is given. */
  lemma ParsedAccounts(user: bool, rest: string)
    ensures Accounts(ParseBody(user, rest), rest)
  {
    if !user {
      var c := Cut(rest, '/');
      var ri := IndexHashSlash(c.after);
      if ri < 0 {
        assert c.found ==> rest == c.before + "/" + c.after;
      } else if c.after[ri] == '#' {
        var d := Cut(c.after[ri + 1..], '/');
      }
    }
  }

  /** Segments that come back are clean, provided no '@' cut the body short. */
  lemma ReturnedIsClean(sh: Shape, g: Segments)
    requires Returns(sh, ParseBody(sh == User, BodyText(sh, g)), g) && '@' !in BodyText(sh, g)
    ensures Clean(sh, g)
  {
    ParsedAccounts(sh == User, BodyText(sh, g));
    var s := BodyText(sh, g);
    NoAtInside(sh, g);
    if sh == SlashDisc {
      var b := ParseBody(false, s);
      ScopeParsed(g.owner, g.repo, '/', g.disc);
    }
  }

  lemma NoAtInside(sh: Shape, g: Segments)
    requires '@' !in BodyText(sh, g)
    ensures sh != User ==> '@' !in g.owner && '@' !in g.repo
    ensures sh == HashDisc || sh == SlashDisc || sh == HashSub ==> '@' !in g.disc
    ensures sh == HashSub ==> '@' !in g.subid
    ensures sh == SlashTail ==> '@' !in g.sub
    ensures sh == User ==> '@' !in g.login
  {
    var s := BodyText(sh, g);
    if sh != User {
      var o := |g.owner|;
      assert s[..o] == g.owner;
      assert s[o + 1..o + 1 + |g.repo|] == g.repo;
      match sh
      case HashDisc => assert s[o + |g.repo| + 2..] == g.disc;
      case SlashDisc => assert s[o + |g.repo| + 2..] == g.disc;
      case HashSub =>
        assert s[o + |g.repo| + 2..][..|g.disc|] == g.disc;
        assert s[o + |g.repo| + |g.disc| + 3..] == g.subid;
      case SlashTail => assert s[o + |g.repo| + 2..] == g.sub;
      case Scope =>
    }
  }

  /** An '@' in any segment is taken for a host suffix, and the segments do not come back. */
  lemma AtNeverReturns(sh: Shape, g: Segments)
    requires '@' in BodyText(sh, g)
    ensures var s := BodyText(sh, g);
            !Returns(sh, ParseBody(sh == User, s[..LastIndexOf(s, '@')]), g)
  {
    var s := BodyText(sh, g);
    var b := LastIndexOf(s, '@');
    ParsedAccounts(sh == User, s[..b]);
    if sh == Scope {
      assert s[|g.owner|] == '/';
    }
  }

  /**
   * For every kind of the table and all segments whatsoever: building the key and parsing it gives
   * the segments back exactly when they are clean for the kind's shape.
   */
  lemma KeyRoundTrip(i: nat, g: Segments)
    requires i < |KIND_SPECS|
    ensures var s := KIND_SPECS[i];
            var key := BuildKey(s.kind, s.shape, g);
            && KindOf(key) == s.kind
            && (Returns(s.shape, Parse(key), g) <==> Clean(s.shape, g))
  {
    TableOk(i);
    var s := KIND_SPECS[i];
    ShapeRoundTrip(s.kind, s.shape, g);
  }

  lemma ShapeRoundTrip(kind: string, sh: Shape, g: Segments)
    requires ':' !in kind && '@' !in kind && '{' !in kind && (kind == "user" <==> sh == User)
    ensures KindOf(BuildKey(kind, sh, g)) == kind
    ensures Returns(sh, Parse(BuildKey(kind, sh, g)), g) <==> Clean(sh, g)
  {
    var body := BodyText(sh, g);
    BuiltText(kind, sh, g);
    KeySplits(kind, body);
    if '@' in body {
      AtNeverReturns(sh, g);
      CleanHasNoAt(sh, g);
    } else {
      if Clean(sh, g) {
        BodyParsed(sh, g);
      }
      if Returns(sh, ParseBody(sh == User, body), g) {
        ReturnedIsClean(sh, g);
      }
    }
  }

  lemma CleanHasNoAt(sh: Shape, g: Segments)
    ensures Clean(sh, g) ==> '@' !in BodyText(sh, g)
  {}

  /** A host suffix changes nothing about a key that has a kind and no '@' of its own. */
  lemma HostSuffixIgnored(key: string, host: string)
    requires '@' !in key && '@' !in host && ':' in key
    ensures KindOf(key + ("@" + host)) == KindOf(key)
    ensures ParseKey(key + ("@" + host)) == ParseKey(key)
  {
    KindOfPrefix(key, "@" + host);
    HostStripped(key, host);
  }

  lemma HostStripped(key: string, host: string)
    requires '@' !in key && '@' !in host
    ensures StripHost(key + ("@" + host)) == key && StripHost(key) == key
  {
    var at := "@" + host;
    StripBody(key, at);
    assert at[0] == '@' && forall j :: 0 < j < |at| ==> at[j] == host[j - 1];
    assert LastIndexOf(at, '@') == 0;
    assert key + at[..0] == key;
  }

  lemma KindOfPrefix(key: string, suffix: string)
    requires ':' in key
    ensures KindOf(key + suffix) == KindOf(key)
  {
    var c := Cut(key, ':');
    CutJoined(c.before, ':', c.after + suffix);
    assert key + suffix == c.before + [':'] + (c.after + suffix);
    CutJoined(c.before, ':', c.after);
  }

  // ---------------------------------------------------------------- safe names

  predicate NameChar(c: char) {
    'a' <= c <= 'z' || 'A' <= c <= 'Z' || '0' <= c <= '9' || c == '_' || c == '.' || c == '-'
  }

  predicate HasDotDot(s: string) { exists i :: 0 <= i < |s| - 1 && s[i] == '.' && s[i + 1] == '.' }

  predicate SafeName(s: string) {
    s == "" || ((forall i :: 0 <= i < |s| ==> NameChar(s[i])) && !HasDotDot(s))
  }

  lemma SafeNameIsClean(s: string)
    requires SafeName(s)
    ensures RepoOk(s) && SegmentOk(s) && ':' !in s && '|' !in s
  {}

  // ---------------------------------------------------------------- webhook payloads

  /** A decoded JSON value; `Frac` is a number with a fraction, already rendered. */
  datatype Json =
    | Null
    | Bool(b: bool)
    | Str(s: string)
    | Int(n: int)
    | Frac(text: string)
    | Obj(fields: map<string, Json>)
    | Arr(items: seq<Json>)

  function Field(v: Json, name: string): Option<Json> {
    if v.Obj? && name in v.fields then Some(v.fields[name]) else None
  }

  function StrField(v: Json, name: string): Option<string> {
    var f := Field(v, name);
    if f.Some? && f.value.Str? then Some(f.value.s) else None
  }

  /** coerce; `show` is fmt.Sprint, used only for objects and arrays. */
  function Coerce(v: Json, show: Json -> string): string {
    match v
    case Str(s) => s
    case Int(n) => Itoa(n)
    case Frac(text) => text
    case Bool(b) => if b then "true" else "false"
    case Null => ""
    case _ => show(v)
  }

  datatype FullName = FullName(owner: string, repo: string)

  function RepoFullName(payload: Json): FullName {
    var repo := Field(payload, "repository");
    if repo.None? || !repo.value.Obj? then FullName("", "")
    else
      var full := StrField(repo.value, "full_name");
      if full.Some? && Cut(full.value, '/').found then FullName(Cut(full.value, '/').before, Cut(full.value, '/').after)
      else
        var name := match StrField(repo.value, "name") case Some(s) => s case None => "";
        var owner := Field(repo.value, "owner");
        var login := if owner.Some? then StrField(owner.value, "login") else None;
        FullName(match login case Some(l) => l case None => "", name)
  }

  function DiscField(payload: Json, obj: string, field: string, show: Json -> string): Option<string> {
    var m := Field(payload, obj);
    if m.None? || !m.value.Obj? then None
    else
      var v := Field(m.value, field);
      if v.None? || v.value.Null? then None
      else var s := Coerce(v.value, show); if s == "" then None else Some(s)
  }

  /** specByEvent: the row an event addresses. */
  function SpecByEvent(event: string, i: nat): (r: Option<KindSpec>)
    requires i <= |KIND_SPECS|
    ensures r.Some? ==> exists j :: i <= j < |KIND_SPECS| && r.value == KIND_SPECS[j] && event in KIND_SPECS[j].events
    decreases |KIND_SPECS| - i
  {
    if i == |KIND_SPECS| then None
    else if event in KIND_SPECS[i].events then Some(KIND_SPECS[i])
    else SpecByEvent(event, i + 1)
  }

  predicate IsPrComment(event: string, payload: Json) {
    && event == "issue_comment"
    && var issue := Field(payload, "issue");
    issue.Some? && issue.value.Obj? && "pull_request" in issue.value.fields
  }

  function RepoSegments(n: FullName, disc: string): Segments { Segments(n.owner, n.repo, disc, "", "", "") }

  function EventParts(n: FullName, disc: string): map<string, string> {
    map["owner" := n.owner, "repo" := n.repo, "disc" := disc]
  }

  function EventKey(event: string, payload: Json, show: Json -> string): Option<string> {
    var spec := SpecByEvent(event, 0);
    if spec.None? then None
    else
      var s := spec.value;
      var keyfmt := if IsPrComment(event, payload) then Keyfmt("pr", HashDisc) else Keyfmt(s.kind, s.shape);
      var n := RepoFullName(payload);
      if n.owner == "" || n.repo == "" || !SafeName(n.owner) || !SafeName(n.repo) then None
      else
        var disc := DiscField(payload, s.obj, s.field, show);
        if disc.None? then None else Some(Fill(Render(keyfmt), EventParts(n, disc.value)))
  }

  /** The webhook rows use only the two shapes with one discriminator. */
  lemma EventRows(event: string)
    ensures var r := SpecByEvent(event, 0);
            r.Some? ==> RowOk(r.value) && (r.value.shape == HashDisc || r.value.shape == SlashDisc)
  {
    var r := SpecByEvent(event, 0);
    if r.Some? {
      var j :| 0 <= j < |KIND_SPECS| && r.value == KIND_SPECS[j] && event in KIND_SPECS[j].events;
      TableOk(j);
      EventShape(j);
    }
  }

  lemma EventShape(j: nat)
    requires j < |KIND_SPECS| && KIND_SPECS[j].events != []
    ensures KIND_SPECS[j].shape == HashDisc || KIND_SPECS[j].shape == SlashDisc
  {}

  lemma SubstFew(kind: string, sh: Shape, n: FullName, disc: string)
    requires sh == HashDisc || sh == SlashDisc
    ensures Subst(Keyfmt(kind, sh), EventParts(n, disc)) == kind + ":" + BodyText(sh, RepoSegments(n, disc))
  {
    var p := EventParts(n, disc);
    var sep := if sh == HashDisc then "#" else "/";
    SubstScope(Lit(sep, Hole("disc", End)), p);
    SubstOne(sep, "disc", p);
    assert n.repo + (sep + disc) == n.repo + sep + disc;
  }

  /** With only the three parts a webhook gives, a one-discriminator template is filled the same way. */
  lemma FewPartsSuffice(kind: string, sh: Shape, n: FullName, disc: string)
    requires '{' !in kind && (sh == HashDisc || sh == SlashDisc)
    ensures Fill(Render(Keyfmt(kind, sh)), EventParts(n, disc)) == BuildKey(kind, sh, RepoSegments(n, disc))
  {
    KeyfmtWellFormed(kind, sh);
    FillIsSubst(Keyfmt(kind, sh), EventParts(n, disc));
    BuiltText(kind, sh, RepoSegments(n, disc));
    SubstFew(kind, sh, n, disc);
  }

  /** Owner and repo come back for every discriminator, even one that holds '/' or '@'. */
  lemma ScopeSurvives(kind: string, sh: Shape, n: FullName, disc: string)
    requires ':' !in kind && '@' !in kind && '{' !in kind && kind != "user" && (sh == HashDisc || sh == SlashDisc)
    requires RepoOk(n.owner) && RepoOk(n.repo)
    ensures var b := Parse(BuildKey(kind, sh, RepoSegments(n, disc)));
            !b.Login? && b.owner == n.owner && b.repo == n.repo
    ensures KindOf(BuildKey(kind, sh, RepoSegments(n, disc))) == kind
  {
    BuiltText(kind, sh, RepoSegments(n, disc));
    var c := if sh == HashDisc then '#' else '/';
    var body := n.owner + "/" + (n.repo + [c] + disc);
    assert BodyText(sh, RepoSegments(n, disc)) == body;
    KeySplits(kind, body);
    var rest := if '@' in disc then disc[..LastIndexOf(disc, '@')] else disc;
    CutInDisc(n, c, disc);
    ScopeParsed(n.owner, n.repo, c, rest);
  }

  /** With a clean owner and repo, only the discriminator can be cut short by an '@'. */
  lemma CutInDisc(n: FullName, c: char, disc: string)
    requires RepoOk(n.owner) && RepoOk(n.repo) && c != '@'
    ensures var body := n.owner + "/" + (n.repo + [c] + disc);
            && ('@' in body <==> '@' in disc)
            && ('@' in disc ==> body[..LastIndexOf(body, '@')] == n.owner + "/" + (n.repo + [c] + disc[..LastIndexOf(disc, '@')]))
  {
    var head := n.owner + "/" + n.repo + [c];
    var body := n.owner + "/" + (n.repo + [c] + disc);
    assert body == head + disc;
    assert '@' !in head;
    LastAt(head, disc);
    var d := LastIndexOf(disc, '@');
    if d >= 0 {
      assert body[..|head| + d] == head + disc[..d];
      assert head + disc[..d] == n.owner + "/" + (n.repo + [c] + disc[..d]);
      assert body[|head| + d] == '@';
    } else {
      assert LastIndexOf(body, '@') == -1;
    }
  }

  /**
   * A key built from a webhook has the event's kind, always parses back to its owner and repo, and
   * parses back to its discriminator exactly when that holds no '/' and no '@'.
   */
  lemma EventKeyParses(event: string, payload: Json, show: Json -> string)
    requires EventKey(event, payload, show).Some?
    ensures var key := EventKey(event, payload, show).value;
            var s := SpecByEvent(event, 0).value;
            var n := RepoFullName(payload);
            var disc := DiscField(payload, s.obj, s.field, show).value;
            var b := Parse(key);
            && KindOf(key) == (if IsPrComment(event, payload) then "pr" else s.kind)
            && !b.Login? && b.owner == n.owner && b.repo == n.repo
            && (Returns(if IsPrComment(event, payload) then HashDisc else s.shape, b, RepoSegments(n, disc)) <==> SegmentOk(disc))
  {
    EventRows(event);
    var s := SpecByEvent(event, 0).value;
    var n := RepoFullName(payload);
    var disc := DiscField(payload, s.obj, s.field, show).value;
    SafeNameIsClean(n.owner);
    SafeNameIsClean(n.repo);
    var kind := if IsPrComment(event, payload) then "pr" else s.kind;
    var sh := if IsPrComment(event, payload) then HashDisc else s.shape;
    FewPartsSuffice(kind, sh, n, disc);
    ShapeRoundTrip(kind, sh, RepoSegments(n, disc));
    ScopeSurvives(kind, sh, n, disc);
  }

  /** Numbers, the discriminators of issues, pull requests and check runs, are always clean. */
  lemma NumbersAreClean(n: int)
    ensures SegmentOk(Itoa(n))
  {}

  /** The number of one entry of check_run.pull_requests, empty when there is none. */
  function PrNumber(item: Json, show: Json -> string): string {
    match Field(item, "number")
    case Some(v) => Coerce(v, show)
    case None => ""
  }

  function PrNumbers(items: seq<Json>, show: Json -> string): seq<string> {
    if items == [] then []
    else (if PrNumber(items[0], show) == "" then [] else [PrNumber(items[0], show)]) + PrNumbers(items[1..], show)
  }

  /** The pull requests a check run names, when the payload is one this program trusts. */
  function RelatedNumbers(event: string, payload: Json, show: Json -> string): seq<string> {
    var n := RepoFullName(payload);
    var run := Field(payload, "check_run");
    var prs := if run.Some? then Field(run.value, "pull_requests") else None;
    if event != "check_run" || n.owner == "" || n.repo == "" || !SafeName(n.owner) || !SafeName(n.repo) || prs.None? || !prs.value.Arr?
    then [] else PrNumbers(prs.value.items, show)
  }

  function EventKeyOf(keyfmt: Template, n: FullName, disc: string): string { Fill(Render(keyfmt), EventParts(n, disc)) }

  function KeysFor(keyfmt: Template, n: FullName, discs: seq<string>): (keys: seq<string>)
    ensures |keys| == |discs|
    ensures forall i :: 0 <= i < |keys| ==> keys[i] == EventKeyOf(keyfmt, n, discs[i])
  {
    if discs == [] then [] else [EventKeyOf(keyfmt, n, discs[0])] + KeysFor(keyfmt, n, discs[1..])
  }

  method KeysOfListed(keyfmt: Template, n: FullName, items: seq<Json>, show: Json -> string) returns (out: seq<string>)
    ensures out == KeysFor(keyfmt, n, PrNumbers(items, show))
  {
    out := [];
    var i := |items|;
    while i > 0
      invariant 0 <= i <= |items|
      invariant out == KeysFor(keyfmt, n, PrNumbers(items[i..], show))
    {
      i := i - 1;
      assert items[i..][0] == items[i] && items[i..][1..] == items[i + 1..];
      var disc := PrNumber(items[i], show);
      if disc != "" {
        out := [EventKeyOf(keyfmt, n, disc)] + out;
      }
    }
    assert items[0..] == items;
  }

  /** relatedKeys as written: one key for each listed number, in order, and nothing for an untrusted payload. */
  method RelatedKeys(event: string, payload: Json, show: Json -> string) returns (out: seq<string>)
    ensures out == KeysFor(Keyfmt("pr", HashDisc), RepoFullName(payload), RelatedNumbers(event, payload, show))
  {
    out := [];
    var n := RepoFullName(payload);
    if event != "check_run" || n.owner == "" || n.repo == "" || !SafeName(n.owner) || !SafeName(n.repo) {
      return;
    }
    var run := Field(payload, "check_run");
    var prs := if run.Some? then Field(run.value, "pull_requests") else None;
    if prs.Some? && prs.value.Arr? {
      out := KeysOfListed(Keyfmt("pr", HashDisc), n, prs.value.items, show);
    }
  }

  /** Every related key is a pull request key that parses back to its repository and number. */
  lemma RelatedKeysParse(event: string, payload: Json, show: Json -> string, i: nat)
    requires i < |RelatedNumbers(event, payload, show)|
    ensures var n, discs := RepoFullName(payload), RelatedNumbers(event, payload, show);
            var key := KeysFor(Keyfmt("pr", HashDisc), n, discs)[i];
            && KindOf(key) == "pr"
            && (Parse(key) == Numbered(n.owner, n.repo, discs[i]) <==> SegmentOk(discs[i]))
  {
    PrKeyParses(RepoFullName(payload), RelatedNumbers(event, payload, show)[i]);
  }

  lemma PrKeyParses(n: FullName, disc: string)
    requires SafeName(n.owner) && SafeName(n.repo)
    ensures var key := EventKeyOf(Keyfmt("pr", HashDisc), n, disc);
            KindOf(key) == "pr" && (Parse(key) == Numbered(n.owner, n.repo, disc) <==> SegmentOk(disc))
  {
    SafeNameIsClean(n.owner);
    SafeNameIsClean(n.repo);
    FewPartsSuffice("pr", HashDisc, n, disc);
    ShapeRoundTrip("pr", HashDisc, RepoSegments(n, disc));
  }

  // ---------------------------------------------------------------- scopes and tags

  function ScopePrefix(key: string): string {
    var b := Parse(key);
    if b.Login? || b.owner == "" || b.repo == "" then "" else "repo:" + b.owner + "/" + b.repo
  }

  /** The tag a list result is stored under. */
  function Composite(key: string): string {
    var sp := ScopePrefix(key);
    if sp == "" then "" else sp + "|" + KindOf(key)
  }

  function ScopeTag(owner: string, repo: string, kind: string): string { "repo:" + owner + "/" + repo + "|" + kind }

  /** Tags never collide when owners hold no '/' and repos no '|', as no safe name does. */
  lemma ScopeTagInjective(o1: string, r1: string, k1: string, o2: string, r2: string, k2: string)
    requires '/' !in o1 && '|' !in r1 && '/' !in o2 && '|' !in r2
    requires ScopeTag(o1, r1, k1) == ScopeTag(o2, r2, k2)
    ensures o1 == o2 && r1 == r2 && k1 == k2
  {
    TagText(o1, r1, k1);
    TagText(o2, r2, k2);
    CutTwice(o1, r1, k1);
    CutTwice(o2, r2, k2);
  }

  lemma TagText(o: string, r: string, k: string)
    ensures ScopeTag(o, r, k)[5..] == o + "/" + (r + "|" + k)
  {}

  lemma CutTwice(o: string, r: string, k: string)
    requires '/' !in o && '|' !in r
    ensures var c := Cut(o + "/" + (r + "|" + k), '/');
            c.before == o && Cut(c.after, '|') == CutResult(r, k, true)
  {
    CutJoined(o, '/', r + "|" + k);
    CutJoined(r, '|', k);
  }

  /** The tag of a key built for a repository, whatever its discriminator. */
  lemma BuiltTag(kind: string, sh: Shape, n: FullName, disc: string)
    requires ':' !in kind && '@' !in kind && '{' !in kind && kind != "user" && (sh == HashDisc || sh == SlashDisc)
    requires SafeName(n.owner) && SafeName(n.repo) && n.owner != "" && n.repo != ""
    ensures var key := EventKeyOf(Keyfmt(kind, sh), n, disc);
            KindOf(key) == kind && Composite(key) == ScopeTag(n.owner, n.repo, kind)
  {
    SafeNameIsClean(n.owner);
    SafeNameIsClean(n.repo);
    FewPartsSuffice(kind, sh, n, disc);
    ScopeSurvives(kind, sh, n, disc);
  }

  /** A webhook key's tag is the tag of its owner, repo and kind, whatever its discriminator. */
  lemma EventKeyTag(event: string, payload: Json, show: Json -> string)
    requires EventKey(event, payload, show).Some?
    ensures var key, n := EventKey(event, payload, show).value, RepoFullName(payload);
            && SafeName(n.owner) && SafeName(n.repo) && n.owner != "" && n.repo != ""
            && Composite(key) == ScopeTag(n.owner, n.repo, KindOf(key))
  {
    EventKeyParses(event, payload, show);
  }
}
