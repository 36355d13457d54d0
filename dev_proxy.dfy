/** The development server's proxy table: which backend a request path is
    forwarded to and the path the backend sees. A rule applies when the path
    starts with its context string (Vite's rule for contexts that do not start
    with '^'), the first rule in table order wins, and its rewrite replaces an
    anchored prefix match (`path.replace(/^\/prefix/, with)`) at most once. */
module DevProxy {
  import opened Strings
  import Transcription

  datatype Rewrite = NoRewrite | ReplacePrefix(pattern: string, with: string)

  datatype Rule = Rule(context: string, target: string, rewrite: Rewrite)

  /** `path.replace(/^pattern/, with)` for a pattern without metacharacters. */
  function ReplaceAnchored(path: string, pattern: string, with: string): (r: string)
    ensures StartsWith(path, pattern) ==> r == with + path[|pattern|..]
    ensures !StartsWith(path, pattern) ==> r == path
  {
    if StartsWith(path, pattern) then with + path[|pattern|..] else path
  }

  function Apply(rw: Rewrite, path: string): string {
    match rw
    case NoRewrite => path
    case ReplacePrefix(p, w) => ReplaceAnchored(path, p, w)
  }

  const Table: seq<Rule> := [
    Rule("/api", "https://ioqa.maximeyes.com", ReplacePrefix("/api", "/api")),
    Rule("/e1", "https://aiscribeqa.maximeyes.com", NoRewrite),
    Rule("/audio-api", "https://aiscribeqa.maximeyes.com:5002", ReplacePrefix("/audio-api", "")),
    Rule("/transcription-ws", "wss://aiscribeqa.maximeyes.com:5002", ReplacePrefix("/transcription-ws", "")),
    Rule("/token-api", "https://aiscribeqa.maximeyes.com:444", ReplacePrefix("/token-api", ""))
  ]

  /** The first rule of `rules` whose context starts `path`, as an index. */
  function FirstMatch(rules: seq<Rule>, path: string): (r: Option<nat>)
    ensures r.Some? ==> r.value < |rules| && StartsWith(path, rules[r.value].context)
    ensures r.Some? ==> forall k :: 0 <= k < r.value ==> !StartsWith(path, rules[k].context)
    ensures r.None? ==> forall k :: 0 <= k < |rules| ==> !StartsWith(path, rules[k].context)
  {
    if rules == [] then None
    else if StartsWith(path, rules[0].context) then Some(0)
    else
      match FirstMatch(rules[1..], path)
      case None => None
      case Some(i) => Some(i + 1)
  }

  /** Where a request for `path` goes: the backend and the path it receives,
      or `None` when the development server answers it itself. A path is
      forwarded exactly when some context starts it, by the first such rule. */
  function Forward(path: string): (r: Option<(string, string)>)
    ensures r.Some? <==> exists k :: 0 <= k < |Table| && StartsWith(path, Table[k].context)
    ensures r.Some? ==> (exists k :: (0 <= k < |Table| && StartsWith(path, Table[k].context)
      && r.value == (Table[k].target, Apply(Table[k].rewrite, path))
      && (forall j :: 0 <= j < k ==> !StartsWith(path, Table[j].context))))
  {
    match FirstMatch(Table, path)
    case None => None
    case Some(i) =>
      assert StartsWith(path, Table[i].context);
      Some((Table[i].target, Apply(Table[i].rewrite, path)))
  }

  /** The `/api` rewrite gives every path back unchanged. */
  lemma ApiRewriteIsIdentity(path: string)
    ensures Apply(Table[0].rewrite, path) == path
  {
    if StartsWith(path, "/api") {
      assert path == path[..4] + path[4..];
    }
  }

  /** A stripping rewrite removes its prefix exactly once when the path starts
      with it and leaves every other path alone. */
  lemma StripRemovesPrefixOnce(pattern: string, rest: string, other: string)
    requires !StartsWith(other, pattern)
    ensures ReplaceAnchored(pattern + rest, pattern, "") == rest
    ensures ReplaceAnchored(pattern + pattern + rest, pattern, "") == pattern + rest
    ensures ReplaceAnchored(other, pattern, "") == other
  {
    assert (pattern + rest)[..|pattern|] == pattern;
    assert (pattern + pattern + rest)[..|pattern|] == pattern;
    assert (pattern + pattern + rest)[|pattern|..] == pattern + rest;
  }

  /** A prefix rewrite is undone by the reverse rewrite: a path that starts
      with `pattern` comes back unchanged, and what follows the prefix is kept
      character for character. */
  lemma ReplaceAnchoredRoundTrip(path: string, pattern: string, with: string)
    requires StartsWith(path, pattern)
    ensures StartsWith(ReplaceAnchored(path, pattern, with), with)
    ensures ReplaceAnchored(ReplaceAnchored(path, pattern, with), with, pattern) == path
  {
    var r := ReplaceAnchored(path, pattern, with);
    assert r[..|with|] == with;
    assert r[|with|..] == path[|pattern|..];
    assert path == pattern + path[|pattern|..];
  }

  /** Forwarding by a stripping rule: the backend receives the rest of the path. */
  lemma StrippedRoute(i: nat, rest: string)
    requires 2 <= i < |Table|
    requires forall k :: 0 <= k < i ==> !StartsWith(Table[i].context + rest, Table[k].context)
    ensures Forward(Table[i].context + rest) == Some((Table[i].target, rest))
  {
    var path := Table[i].context + rest;
    assert path[..|Table[i].context|] == Table[i].context;
    StripRemovesPrefixOnce(Table[i].context, rest, "");
    var m := FirstMatch(Table, path);
    assert m == Some(i);
  }

  /** A path that differs from a context at one of the context's positions does not start with it. */
  lemma DiffersAt(path: string, context: string, j: nat)
    requires j < |context| && j < |path| && path[j] != context[j]
    ensures !StartsWith(path, context)
  {
    assert |context| <= |path| ==> path[..|context|][j] == path[j];
  }

  /** The live-transcription socket reaches the backend's "/ws". */
  lemma TranscriptionSocketRoute()
    ensures Forward(Transcription.SocketPath) == Some(("wss://aiscribeqa.maximeyes.com:5002", "/ws"))
  {
    SocketMissesEarlierRules("/ws");
    assert Transcription.SocketPath == Table[3].context + "/ws";
    StrippedRoute(3, "/ws");
  }

  lemma SocketMissesEarlierRules(rest: string)
    ensures forall k :: 0 <= k < 3 ==> !StartsWith(Table[3].context + rest, Table[k].context)
  {
    var path := Table[3].context + rest;
    assert path[1] == 't';
    DiffersAt(path, Table[0].context, 1);
    DiffersAt(path, Table[1].context, 1);
    DiffersAt(path, Table[2].context, 1);
  }

  /** The path the upload form posts to, and the part of it the audio backend sees. */
  const UploadBackendPath := "/process_audio_upload"
  const UploadPath := "/audio-api" + UploadBackendPath

  /** The audio upload reaches the backend's "/process_audio_upload". */
  lemma UploadRoute()
    ensures Forward(UploadPath) == Some(("https://aiscribeqa.maximeyes.com:5002", UploadBackendPath))
  {
    UploadMissesEarlierRules(UploadBackendPath);
    assert UploadPath == Table[2].context + UploadBackendPath;
    StrippedRoute(2, UploadBackendPath);
  }

  lemma UploadMissesEarlierRules(rest: string)
    ensures forall k :: 0 <= k < 2 ==> !StartsWith(Table[2].context + rest, Table[k].context)
  {
    var path := Table[2].context + rest;
    assert path[1] == 'a' && path[2] == 'u';
    DiffersAt(path, Table[0].context, 2);
    DiffersAt(path, Table[1].context, 1);
  }

  /** The path the token service asks for, and the part of it the token backend sees. */
  const TokenBackendPath := "/api/Customer/GetTokenAsyncNew?accountId=DemoScribe"
  const TokenPath := "/token-api" + TokenBackendPath

  /** The token request reaches the backend's own "/api/..." path. */
  lemma TokenRoute()
    ensures Forward(TokenPath) == Some(("https://aiscribeqa.maximeyes.com:444", TokenBackendPath))
  {
    TokenMissesEarlierRules(TokenBackendPath);
    assert TokenPath == Table[4].context + TokenBackendPath;
    StrippedRoute(4, TokenBackendPath);
  }

  lemma TokenMissesEarlierRules(rest: string)
    ensures forall k :: 0 <= k < 4 ==> !StartsWith(Table[4].context + rest, Table[k].context)
  {
    var path := Table[4].context + rest;
    assert path[1] == 't' && path[2] == 'o';
    DiffersAt(path, Table[0].context, 1);
    DiffersAt(path, Table[1].context, 1);
    DiffersAt(path, Table[2].context, 1);
    DiffersAt(path, Table[3].context, 2);
  }

  /** Contexts are plain prefixes, not path segments: "/audio-apiX" is sent to
      the audio backend as "X". */
  lemma PrefixIsNotSegmentAware()
    ensures Forward("/audio-apiX") == Some(("https://aiscribeqa.maximeyes.com:5002", "X"))
  {
    assert "/audio-apiX" == Table[2].context + "X";
    assert !StartsWith("/audio-apiX", "/api") by { assert "/audio-apiX"[1] == 'a' && "/audio-apiX"[2] == 'u'; }
    assert !StartsWith("/audio-apiX", "/e1") by { assert "/audio-apiX"[1] == 'a'; }
    StrippedRoute(2, "X");
  }
}
