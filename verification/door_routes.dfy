/** The door's route table and the decision it takes on a canonical path. */
module DoorRoutes {
  import opened Wrappers
  import opened DoorPaths

  /** A template segment: a fixed word, a dynamic id, or a chat connection id. */
  datatype Part = Word(text: string) | Id | Conn

  datatype Entry = Entry(methods: set<string>, template: seq<Part>)

  datatype Table = Table(workspace: seq<Entry>, astridOnly: seq<Entry>, acp: seq<Entry>)

  datatype Service = Runtime | Astrid | Acp

  datatype Route = Route(service: Service, path: string)

  const RESERVED_ACP: set<string> := {"health", "connect", "projects", "models", "model", "agents"}

  predicate IdSegment(s: string) {
    1 <= |s| <= 256 && Alphanumeric(s[0]) && forall c | c in s :: SafeChar(c)
  }

  predicate ConnSegment(s: string) {
    1 <= |s| <= 128 && s !in RESERVED_ACP && forall c | c in s :: Alphanumeric(c) || c == '_' || c == '-'
  }

  predicate SegmentMatches(expected: Part, actual: string) {
    match expected
    case Word(text) => text == actual
    case Id => IdSegment(actual)
    case Conn => ConnSegment(actual)
  }

  predicate Matches(e: Entry, verb: string, segments: seq<string>) {
    verb in e.methods && |e.template| == |segments| && forall i | 0 <= i < |segments| :: SegmentMatches(e.template[i], segments[i])
  }

  predicate Find(table: seq<Entry>, verb: string, segments: seq<string>) {
    exists i | 0 <= i < |table| :: Matches(table[i], verb, segments)
  }

  /** Paths no table entry may open, whatever it matches; "claim" is denied as a prefix. */
  predicate Denied(s: seq<string>) {
    && |s| >= 2 && s[0] == "v1"
    && (|| s[1] in {"doctor", "backup", "restore", "export", "executors"}
        || (|s| >= 3 && s[1] == "realm" && s[2] in {"tombstone", "recover", "purge", "replace"})
        || (|s| >= 3 && s[1] == "tasks" && "claim" <= s[2])
        || (|s| >= 3 && s[1] in {"attempts", "recovery"}))
  }

  function Upstream(segments: seq<string>, query: string): string
    requires segments != []
  {
    Print(Canonical(segments, query))
  }

  function Decide(t: Table, c: Canonical, verb: string): Option<Route> {
    var s := c.segments;
    if |s| < 3 || s[0] != "api" || (s[1] != "runtime" && s[1] != "astrid") then None
    else
      var astrid, up := s[1] == "astrid", s[2..];
      if astrid && up[0] == "acp" then
        if Find(t.acp, verb, up) then Some(Route(Acp, Upstream(up, c.query))) else None
      else if Denied(up) then None
      else if Find(t.workspace, verb, up) || (astrid && Find(t.astridOnly, verb, up))
      then Some(Route(if astrid then Astrid else Runtime, Upstream(up, c.query)))
      else None
  }

  /** The route for a browser request; `verb` is the request method in upper case. */
  function Classify(t: Table, path: string, verb: string): Option<Route> {
    var c := Parse(path);
    if c.None? then None else Decide(t, c.value, verb)
  }

  // -- exactly what is served

  /** A letter or digit, then at most 255 safe characters. */
  predicate IdLike(s: string) {
    s != [] && Alphanumeric(s[0]) && |s[1..]| < 256 && forall c | c in s[1..] :: SafeChar(c)
  }

  /** At most 128 letters, digits, underscores and hyphens that are no word of the chat service's own. */
  predicate ConnLike(s: string) {
    && s != [] && |s| <= 128 && (forall c | c in s :: Alphanumeric(c) || c in "_-")
    && s != "health" && s != "connect" && s != "projects" && s != "models" && s != "model" && s != "agents"
  }

  /** The segments fill the template, part by part. */
  predicate Fills(template: seq<Part>, segments: seq<string>) {
    if template == [] || segments == [] then template == [] && segments == []
    else
      && (match template[0] case Word(text) => segments[0] == text case Id => IdLike(segments[0]) case Conn => ConnLike(segments[0]))
      && Fills(template[1..], segments[1..])
  }

  lemma PartIff(part: Part, s: string)
    ensures SegmentMatches(part, s) <==> match part case Word(text) => s == text case Id => IdLike(s) case Conn => ConnLike(s)
  {
    if s != [] {
      assert forall c :: c in s <==> c == s[0] || c in s[1..];
    }
  }

  predicate Opens(entry: Entry, verb: string, up: seq<string>) {
    verb in entry.methods && Fills(entry.template, up)
  }

  lemma {:induction false} FillsIff(template: seq<Part>, segments: seq<string>)
    ensures Fills(template, segments) <==>
              |template| == |segments| && forall i | 0 <= i < |segments| :: SegmentMatches(template[i], segments[i])
    decreases |template|
  {
    if template != [] && segments != [] {
      PartIff(template[0], segments[0]);
      FillsIff(template[1..], segments[1..]);
      assert forall i | 1 <= i < |segments| :: segments[i] == segments[1..][i - 1];
      assert forall i | 1 <= i < |template| :: template[i] == template[1..][i - 1];
    }
  }

  lemma FindIff(table: seq<Entry>, verb: string, up: seq<string>)
    ensures Find(table, verb, up) <==> exists e | e in table :: Opens(e, verb, up)
  {
    if i :| 0 <= i < |table| && Matches(table[i], verb, up) {
      FillsIff(table[i].template, up);
      assert table[i] in table && Opens(table[i], verb, up);
    }
    if e :| e in table && Opens(e, verb, up) {
      FillsIff(e.template, up);
      var i :| 0 <= i < |table| && table[i] == e;
      assert Matches(table[i], verb, up);
    }
  }

  // -- the deny list, read off the path

  predicate Slashless(parts: seq<string>) {
    forall i | 0 <= i < |parts| :: parts[i] != "" && '/' !in parts[i]
  }

  /** The path goes on with these characters, and then ends or begins a new segment. */
  predicate Continues(text: string, path: string) {
    text <= path && (|path| == |text| || path[|text|] == '/')
  }

  /** These words as the text of a path. */
  function Under(words: seq<string>): string
    requires words != []
  {
    "/" + Join(words)
  }

  /** The patterns of the deny list, on the text of the path: whole words, and three that match as mere prefixes. */
  predicate DeniedPath(path: string) {
    DeniedWord(path) || DeniedRealm(path) || DeniedPrefix(path)
  }

  predicate DeniedWord(path: string) {
    exists w | w in {"doctor", "backup", "restore", "export", "executors"} :: Continues(Under(["v1", w]), path)
  }

  predicate DeniedRealm(path: string) {
    exists w | w in {"tombstone", "recover", "purge", "replace"} :: Continues(Under(["v1", "realm", w]), path)
  }

  predicate DeniedPrefix(path: string) {
    Under(["v1", "tasks", "claim"]) <= path || Under(["v1", "attempts", ""]) <= path || Under(["v1", "recovery", ""]) <= path
  }

  predicate NoSlash(words: seq<string>) {
    forall i | 0 <= i < |words| :: '/' !in words[i]
  }

  lemma FirstWord(parts: seq<string>, word: string)
    requires parts != [] && Slashless(parts) && '/' !in word
    ensures Continues(word, Join(parts)) <==> parts[0] == word
    ensures word <= Join(parts) <==> word <= parts[0]
  {
    var path := Join(parts);
    assert parts[0] <= path && (|path| == |parts[0]| || path[|parts[0]|] == '/');
    if word <= path && |word| <= |parts[0]| {
      assert word == path[..|word|] == parts[0][..|word|];
      if |word| < |parts[0]| {
        assert path[|word|] == parts[0][|word|];
      }
    }
  }

  lemma PastFirst(parts: seq<string>, word: string, rest: string)
    requires parts != [] && Slashless(parts) && '/' !in word
    ensures word + "/" + rest <= Join(parts) <==> |parts| > 1 && parts[0] == word && rest <= Join(parts[1..])
    ensures Continues(word + "/" + rest, Join(parts)) <==> |parts| > 1 && parts[0] == word && Continues(rest, Join(parts[1..]))
  {
    var path, text := Join(parts), word + "/" + rest;
    FirstWord(parts, word);
    if text <= path {
      assert path[..|word|] == word && path[|word|] == '/';
      assert Continues(word, path);
    }
    if parts[0] == word && |parts| > 1 {
      assert path == word + "/" + Join(parts[1..]);
      assert path[|word| + 1..] == Join(parts[1..]);
      assert text[|word| + 1..] == rest;
      assert rest <= Join(parts[1..]) ==> path[..|text|] == text;
    }
  }

  /** Joined words continue joined segments exactly when they are their first ones; as a mere prefix the last may go on. */
  lemma {:induction false} WordsAreFirst(words: seq<string>, up: seq<string>)
    requires words != [] && up != [] && NoSlash(words) && Slashless(up)
    ensures Continues(Join(words), Join(up)) <==> words <= up
    ensures var n := |words| - 1; Join(words) <= Join(up) <==> n < |up| && words[..n] == up[..n] && words[n] <= up[n]
    decreases |words|
  {
    if |words| == 1 {
      FirstWord(up, words[0]);
      assert words == [words[0]];
    } else {
      PastFirst(up, words[0], Join(words[1..]));
      assert Join(words) == words[0] + "/" + Join(words[1..]);
      if |up| > 1 {
        WordsAreFirst(words[1..], up[1..]);
        FirstsAgree(words, up);
      }
    }
  }

  lemma FirstsAgree(words: seq<string>, up: seq<string>)
    requires |words| > 1 && |up| > 1
    ensures words <= up <==> words[0] == up[0] && words[1..] <= up[1..]
    ensures var n := |words| - 1;
      n < |up| ==> (words[..n] == up[..n] <==> words[0] == up[0] && words[1..][..n - 1] == up[1..][..n - 1])
  {
    var n := |words| - 1;
    assert words == [words[0]] + words[1..] && up == [up[0]] + up[1..];
    if n < |up| {
      assert words[..n] == [words[0]] + words[1..][..n - 1] && up[..n] == [up[0]] + up[1..][..n - 1];
    }
  }

  lemma Unslashed(text: string, path: string)
    ensures "/" + text <= "/" + path <==> text <= path
    ensures Continues("/" + text, "/" + path) <==> Continues(text, path)
  {
    assert ("/" + path)[1..] == path && ("/" + text)[1..] == text;
    assert text <= path ==> ("/" + path)[..|text| + 1] == "/" + text;
    assert "/" + text <= "/" + path ==> path[..|text|] == text;
  }

  lemma UnderIsFirst(words: seq<string>, up: seq<string>)
    requires words != [] && up != [] && NoSlash(words) && Slashless(up)
    ensures Continues(Under(words), Under(up)) <==> words <= up
    ensures var n := |words| - 1; Under(words) <= Under(up) <==> n < |up| && words[..n] == up[..n] && words[n] <= up[n]
  {
    Unslashed(Join(words), Join(up));
    WordsAreFirst(words, up);
  }

  lemma TwoWords(a: string, b: string, up: seq<string>)
    ensures [a, b] <= up <==> |up| > 1 && up[0] == a && up[1] == b
  {
  }

  lemma ThreeWords(a: string, b: string, c: string, up: seq<string>)
    ensures [a, b, c] <= up <==> |up| > 2 && up[0] == a && up[1] == b && up[2] == c
    ensures |up| > 2 ==> ([a, b, c][..2] == up[..2] <==> up[0] == a && up[1] == b)
  {
    assert [a, b, c][..2] == [a, b];
    if |up| > 2 {
      assert up[..2] == [up[0], up[1]];
    }
  }

  lemma AnySecond(words: set<string>, up: seq<string>)
    requires up != [] && Slashless(up) && forall w | w in words :: '/' !in w
    ensures (exists w | w in words :: Continues(Under(["v1", w]), Under(up))) <==> |up| > 1 && up[0] == "v1" && up[1] in words
  {
    forall w | w in words
      ensures Continues(Under(["v1", w]), Under(up)) <==> |up| > 1 && up[0] == "v1" && up[1] == w
    {
      UnderIsFirst(["v1", w], up);
      TwoWords("v1", w, up);
    }
  }

  lemma AnyThird(second: string, words: set<string>, up: seq<string>)
    requires up != [] && Slashless(up) && '/' !in second && forall w | w in words :: '/' !in w
    ensures (exists w | w in words :: Continues(Under(["v1", second, w]), Under(up))) <==>
              |up| > 2 && up[0] == "v1" && up[1] == second && up[2] in words
  {
    forall w | w in words
      ensures Continues(Under(["v1", second, w]), Under(up)) <==> |up| > 2 && up[0] == "v1" && up[1] == second && up[2] == w
    {
      UnderIsFirst(["v1", second, w], up);
      ThreeWords("v1", second, w, up);
    }
  }

  /** The segment test denies exactly what the patterns find in the path. */
  lemma DeniedByPath(up: seq<string>)
    requires up != [] && Slashless(up)
    ensures Denied(up) <==> DeniedPath(Under(up))
  {
    WordDenied(up);
    RealmDenied(up);
    PrefixesDenied(up);
  }

  lemma WordDenied(up: seq<string>)
    requires up != [] && Slashless(up)
    ensures DeniedWord(Under(up)) <==> |up| > 1 && up[0] == "v1" && up[1] in {"doctor", "backup", "restore", "export", "executors"}
  {
    AnySecond({"doctor", "backup", "restore", "export", "executors"}, up);
  }

  lemma RealmDenied(up: seq<string>)
    requires up != [] && Slashless(up)
    ensures DeniedRealm(Under(up)) <==>
              |up| > 2 && up[0] == "v1" && up[1] == "realm" && up[2] in {"tombstone", "recover", "purge", "replace"}
  {
    AnyThird("realm", {"tombstone", "recover", "purge", "replace"}, up);
  }

  lemma PrefixesDenied(up: seq<string>)
    requires up != [] && Slashless(up)
    ensures DeniedPrefix(Under(up)) <==>
              |up| > 2 && up[0] == "v1" && ((up[1] == "tasks" && "claim" <= up[2]) || up[1] == "attempts" || up[1] == "recovery")
  {
    PrefixDenied("tasks", "claim", up);
    PrefixDenied("attempts", "", up);
    PrefixDenied("recovery", "", up);
  }

  lemma PrefixDenied(second: string, start: string, up: seq<string>)
    requires up != [] && Slashless(up) && '/' !in second && '/' !in start
    ensures Under(["v1", second, start]) <= Under(up) <==> |up| > 2 && up[0] == "v1" && up[1] == second && start <= up[2]
  {
    UnderIsFirst(["v1", second, start], up);
    ThreeWords("v1", second, start, up);
  }

  /** The service a request for these segments goes to, if the table opens it. */
  function ServiceFor(s: seq<string>): Option<Service> {
    if |s| < 3 || s[0] != "api" then None
    else if s[1] == "runtime" then Some(Runtime)
    else if s[1] == "astrid" then Some(if s[2] == "acp" then Acp else Astrid)
    else None
  }

  /** The entries that may open a request to a service. */
  function EntriesFor(t: Table, service: Service): seq<Entry> {
    match service case Acp => t.acp case Runtime => t.workspace case Astrid => t.workspace + t.astridOnly
  }

  lemma AcceptedAreSlashless(path: string)
    requires Parse(path).Some?
    ensures Slashless(Parse(path).value.segments)
  {
    var raws, mark := AcceptedIsSpelled(path);
  }

  /**
    A request is served exactly when its path is accepted, its first segments name a service, some
    entry of that service admits the method and is filled by the rest, and, outside the chat
    service, the rest is not denied. It goes to that service, at the rest of its path with its query.
   */
  lemma ServedExactly(t: Table, path: string, verb: string, route: Route)
    ensures Classify(t, path, verb) == Some(route) <==>
      && Parse(path).Some?
      && var s := Parse(path).value.segments;
         && ServiceFor(s) == Some(route.service)
         && (exists e | e in EntriesFor(t, route.service) :: Opens(e, verb, s[2..]))
         && (route.service.Acp? || !DeniedPath(Under(s[2..])))
         && route.path == Under(s[2..]) + (if Parse(path).value.query == "" then "" else "?" + Parse(path).value.query)
  {
    if Parse(path).Some? && |Parse(path).value.segments| >= 3 {
      var up := Parse(path).value.segments[2..];
      FindIff(t.acp, verb, up);
      FindIff(t.workspace, verb, up);
      FindIff(t.astridOnly, verb, up);
      AcceptedAreSlashless(path);
      DeniedByPath(up);
      assert forall e :: e in t.workspace + t.astridOnly <==> e in t.workspace || e in t.astridOnly;
    }
  }

  function Prefix(service: Service): string {
    if service.Runtime? then "/api/runtime" else "/api/astrid"
  }

  lemma PrefixPrints(word: string, up: seq<string>, query: string)
    requires up != []
    ensures "/api/" + word + Upstream(up, query) == Print(Canonical(["api", word] + up, query))
  {
    var all := ["api", word] + up;
    assert all[1..] == [word] + up && ([word] + up)[1..] == up;
    assert Join([word] + up) == word + "/" + Join(up);
    assert Join(all) == "api" + "/" + (word + "/" + Join(up));
  }

  lemma DecidedUnderItsPrefix(t: Table, c: Canonical, verb: string)
    requires Decide(t, c, verb).Some?
    ensures var r := Decide(t, c, verb).value;
            c.segments != [] && Prefix(r.service) + r.path == Print(c)
  {
    var word, up := c.segments[1], c.segments[2..];
    PrefixPrints(word, up, c.query);
    assert ["api", word] + up == c.segments;
    assert "/api/" + "runtime" == "/api/runtime" && "/api/" + "astrid" == "/api/astrid";
  }

  /** A route's own path, asked for under its service's prefix, is classified as that same route. */
  lemma RouteClassifiesAsItself(t: Table, path: string, verb: string)
    requires Classify(t, path, verb).Some?
    ensures var r := Classify(t, path, verb).value;
            Classify(t, Prefix(r.service) + r.path, verb) == Some(r)
  {
    PrintedParsesBack(path);
    DecidedUnderItsPrefix(t, Parse(path).value, verb);
  }

  /** Two clean spellings of the same segments with the same query are served alike. */
  lemma SpellingDoesNotMatter(t: Table, verb: string, a: seq<string>, b: seq<string>, segments: seq<string>, query: string, mark: bool)
    requires Spelling(a, segments) && Spelling(b, segments) && (!mark ==> query == "")
    requires Clean(Written(a, query, mark)) && Clean(Written(b, query, mark))
    ensures Classify(t, Written(a, query, mark), verb) == Classify(t, Written(b, query, mark), verb)
  {
    SpelledIsAccepted(a, segments, query, mark);
    SpelledIsAccepted(b, segments, query, mark);
  }
}

/** The hosted page's calls. */
module DoorTable {
  import opened DoorRoutes

  const WORKSPACE_ROUTES: seq<Entry> := [
    Entry({"GET"}, [Word("v1"), Word("health")]),
    Entry({"POST"}, [Word("v1"), Word("handshake")]),
    Entry({"GET"}, [Word("v1"), Word("realm")]),
    Entry({"GET", "PUT"}, [Word("v1"), Word("app-state"), Word("user"), Id]),
    Entry({"GET", "POST"}, [Word("v1"), Word("projects")]),
    Entry({"GET", "PATCH"}, [Word("v1"), Word("projects"), Id]),
    Entry({"GET"}, [Word("v1"), Word("projects"), Id, Word("timelines")]),
    Entry({"GET", "PATCH"}, [Word("v1"), Word("projects"), Id, Word("timelines"), Id]),
    Entry({"GET"}, [Word("v1"), Word("projects"), Id, Word("timelines"), Id, Word("revisions"), Id]),
    Entry({"GET", "POST"}, [Word("v1"), Word("projects"), Id, Word("timelines"), Id, Word("composition-revisions")]),
    Entry({"GET"}, [Word("v1"), Word("projects"), Id, Word("timelines"), Id, Word("composition-revisions"), Id]),
    Entry({"POST"}, [Word("v1"), Word("projects"), Id, Word("timelines"), Id, Word("composition-revisions"), Id, Word("restore")]),
    Entry({"POST"}, [Word("v1"), Word("projects"), Id, Word("timelines"), Id, Word("inspect")]),
    Entry({"GET"}, [Word("v1"), Word("projects"), Id, Word("shots"), Id, Word("revisions"), Id]),
    Entry({"GET", "POST"}, [Word("v1"), Word("projects"), Id, Word("documents")]),
    Entry({"GET", "PATCH"}, [Word("v1"), Word("projects"), Id, Word("documents"), Id]),
    Entry({"GET", "POST"}, [Word("v1"), Word("projects"), Id, Word("thumbnails"), Word("source-frame")]),
    Entry({"POST"}, [Word("v1"), Word("projects"), Id, Word("objects")]),
    Entry({"GET"}, [Word("v1"), Word("projects"), Id, Word("objects"), Id, Word("location")]),
    Entry({"POST"}, [Word("v1"), Word("projects"), Id, Word("media-imports")]),
    Entry({"GET"}, [Word("v1"), Word("projects"), Id, Word("media-imports"), Id]),
    Entry({"GET", "HEAD"}, [Word("v1"), Word("objects"), Id]),
    Entry({"POST"}, [Word("v1"), Word("tasks")]),
    Entry({"GET"}, [Word("v1"), Word("tasks"), Id]),
    Entry({"POST"}, [Word("v1"), Word("tasks"), Id, Word("cancel")]),
    Entry({"POST"}, [Word("v1"), Word("tasks"), Id, Word("retry")]),
    Entry({"GET"}, [Word("v1"), Word("projects"), Id, Word("tasks")]),
    Entry({"GET"}, [Word("v1"), Word("tasks"), Id, Word("managed-outputs")]),
    Entry({"GET"}, [Word("v1"), Word("managed-outputs"), Id]),
    Entry({"POST"}, [Word("v1"), Word("managed-outputs"), Id, Word("export")]),
    Entry({"GET"}, [Word("v1"), Word("events")]),
    Entry({"GET"}, [Word("v1"), Word("projects"), Id, Word("generations")]),
    Entry({"GET"}, [Word("v1"), Word("generations"), Id]),
    Entry({"GET"}, [Word("v1"), Word("generations"), Id, Word("variants")]),
    Entry({"POST"}, [Word("v1"), Word("generations"), Id, Word("variants"), Word("viewed")]),
    Entry({"POST"}, [Word("v1"), Word("variants"), Id, Word("viewed")])
  ]

  const ASTRID_ONLY_ROUTES: seq<Entry> := [
    Entry({"GET"}, [Word("v1"), Word("capabilities")])
  ]

  const ACP_ROUTES: seq<Entry> := [
    Entry({"GET"}, [Word("acp"), Word("health")]),
    Entry({"GET"}, [Word("acp"), Word("models")]),
    Entry({"GET"}, [Word("acp"), Word("agents")]),
    Entry({"POST"}, [Word("acp"), Word("connect")]),
    Entry({"GET"}, [Word("acp"), Conn, Word("models")]),
    Entry({"POST"}, [Word("acp"), Conn, Word("rpc")]),
    Entry({"POST"}, [Word("acp"), Conn, Word("cancel")]),
    Entry({"POST"}, [Word("acp"), Conn, Word("reconnect")]),
    Entry({"GET"}, [Word("acp"), Conn, Word("events")]),
    Entry({"DELETE"}, [Word("acp"), Conn]),
    Entry({"GET", "PATCH"}, [Word("acp"), Word("projects"), Id, Word("chat")]),
    Entry({"POST"}, [Word("acp"), Word("projects"), Id, Word("chat"), Word("sessions")]),
    Entry({"GET"}, [Word("acp"), Word("projects"), Id, Word("chat"), Word("unassigned")]),
    Entry({"POST"}, [Word("acp"), Word("projects"), Id, Word("chat"), Word("associate")]),
    Entry({"PATCH"}, [Word("acp"), Word("projects"), Id, Word("chat"), Word("draft")]),
    Entry({"PATCH"}, [Word("acp"), Word("projects"), Id, Word("chat"), Word("main")]),
    Entry({"POST"}, [Word("acp"), Word("projects"), Id, Word("chat"), Word("prompt")])
  ]

  const SERVED := Table(WORKSPACE_ROUTES, ASTRID_ONLY_ROUTES, ACP_ROUTES)

  /** The second word of every Runtime route. */
  const HEADS: seq<Part> := [
    Word("health"), Word("handshake"), Word("realm"), Word("app-state"), Word("projects"), Word("objects"), Word("tasks"),
    Word("managed-outputs"), Word("events"), Word("generations"), Word("variants")
  ]

  predicate Headed(e: Entry) {
    |e.template| >= 2 && e.template[1] in HEADS && (e.template[1] == Word("realm") ==> |e.template| == 2)
  }

  lemma RoutesAreHeaded()
    ensures forall i | 0 <= i < |WORKSPACE_ROUTES| :: Headed(WORKSPACE_ROUTES[i])
  {
  }

  lemma HeadIsNotDenied(up: seq<string>)
    requires |up| >= 2 && Word(up[1]) in HEADS && (up[1] == "realm" ==> |up| == 2) && Denied(up)
    ensures |up| >= 3 && up[1] == "tasks" && "claim" <= up[2]
  {
  }

  /** The deny list takes away nothing the table serves except tasks whose id begins with "claim". */
  lemma OnlyClaimedTasksAreDenied(verb: string, up: seq<string>)
    requires Find(WORKSPACE_ROUTES, verb, up) && Denied(up)
    ensures |up| >= 3 && up[1] == "tasks" && "claim" <= up[2]
  {
    var i :| 0 <= i < |WORKSPACE_ROUTES| && Matches(WORKSPACE_ROUTES[i], verb, up);
    RoutesAreHeaded();
    var e := WORKSPACE_ROUTES[i];
    assert Headed(e);
    assert SegmentMatches(e.template[1], up[1]);
    HeadIsNotDenied(up);
  }
}
