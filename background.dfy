/**
 * The background agent (background.js): the message listener, the OAuth
 * implicit-grant token parse, and the authenticate–search–like pipeline with
 * its process-wide token cache.
 */
module Background {
  import opened Wrappers
  import opened Text
  import opened Messages

  const ClientId := "YOUR_SPOTIFY_CLIENT_ID"
  const Scope := "user-library-modify"
  const AuthorizeEndpoint := "https://accounts.spotify.com/authorize"
  /** The name of the fragment parameter that carries the token. */
  const TokenKey := "access_token"

  // ---------------------------------------------------------------------------
  // The redirect URL and its fragment parameters
  // ---------------------------------------------------------------------------

  /** A name/value pair of a query or fragment string. */
  type Param = (string, string)

  /** `url.split('#')[1]`: the text between the first '#' and the next one, if any '#' occurs. */
  function Fragment(url: string): (f: Option<string>)
    ensures f.None? <==> '#' !in url
    ensures f.Some? ==> '#' !in f.value
  {
    var pieces := SplitOn(url, '#');
    if |pieces| > 1 then
      assert url[|pieces[0]|] == '#';
      Some(pieces[1])
    else
      None
  }

  /** One piece of a parameter string split at its first '='; a piece without '=' is a name with an empty value. */
  function PairOf(piece: string): (p: Param)
    ensures '=' !in p.0
    ensures '=' !in piece ==> p == (piece, [])
    ensures '=' in piece ==> piece == p.0 + "=" + p.1
  {
    BreakAtFinds(piece, '=');
    var (name, value) := BreakAt(piece, '=');
    (name, if value.Some? then value.value else [])
  }

  /** The pairs of the non-empty pieces, in order. */
  function PairsOf(pieces: seq<string>): (pairs: seq<Param>)
    ensures |pairs| <= |pieces|
  {
    if pieces == [] then []
    else (if pieces[0] == [] then [] else [PairOf(pieces[0])]) + PairsOf(pieces[1..])
  }

  /** A character absent from every piece is absent from every pair, and no name holds '='. */
  lemma {:induction false} PairsOfKeepsOut(pieces: seq<string>, x: char)
    requires forall j :: 0 <= j < |pieces| ==> x !in pieces[j]
    ensures forall i :: 0 <= i < |PairsOf(pieces)| ==>
              x !in PairsOf(pieces)[i].0 && x !in PairsOf(pieces)[i].1 && '=' !in PairsOf(pieces)[i].0
    decreases |pieces|
  {
    if pieces != [] {
      PairsOfKeepsOut(pieces[1..], x);
      if pieces[0] != [] {
        var p := PairOf(pieces[0]);
        assert x !in p.0 && x !in p.1 by {
          if '=' in pieces[0] {
            assert pieces[0] == p.0 + "=" + p.1;
          }
        }
      }
    }
  }

  /**
   * `new URLSearchParams(s)`: an optional leading '?' dropped, the rest split at
   * '&'. Every pair comes from one '&'-free piece split at its first '='.
   */
  function SearchParams(s: string): (pairs: seq<Param>)
    ensures forall i :: 0 <= i < |pairs| ==> '&' !in pairs[i].0 && '&' !in pairs[i].1 && '=' !in pairs[i].0
  {
    var body := if s != [] && s[0] == '?' then s[1..] else s;
    PairsOfKeepsOut(SplitOn(body, '&'), '&');
    PairsOf(SplitOn(body, '&'))
  }

  /** A character absent from the parameter string is absent from every name and value. */
  lemma SearchParamsKeepsOut(s: string, x: char)
    requires x !in s
    ensures forall i :: 0 <= i < |SearchParams(s)| ==> x !in SearchParams(s)[i].0 && x !in SearchParams(s)[i].1
  {
    var body := if s != [] && s[0] == '?' then s[1..] else s;
    assert x !in body by {
      if s != [] && s[0] == '?' {
        assert s == [s[0]] + s[1..];
      }
    }
    var pieces := SplitOn(body, '&');
    JoinWithKeepsOut(pieces, '&', x);
    PairsOfKeepsOut(pieces, x);
  }

  /** `URLSearchParams.get`: the value of the first pair with the given name. */
  function Lookup(pairs: seq<Param>, name: string): (r: Option<string>)
    ensures r.None? <==> forall i :: 0 <= i < |pairs| ==> pairs[i].0 != name
    ensures r.Some? ==> exists i :: 0 <= i < |pairs| && pairs[i] == (name, r.value) &&
                                    forall j :: 0 <= j < i ==> pairs[j].0 != name
  {
    if pairs == [] then None
    else if pairs[0].0 == name then
      assert pairs[0] == (name, pairs[0].1);
      Some(pairs[0].1)
    else
      var r := Lookup(pairs[1..], name);
      if r.Some? then
        var k :| 0 <= k < |pairs| - 1 && pairs[1..][k] == (name, r.value) &&
                 forall j :: 0 <= j < k ==> pairs[1..][j].0 != name;
        assert pairs[k + 1] == (name, r.value);
        assert forall j :: 0 <= j < k + 1 ==> pairs[j].0 != name by {
          forall j | 0 <= j < k + 1 ensures pairs[j].0 != name {
            if j > 0 { assert pairs[j] == pairs[1..][j - 1]; }
          }
        }
        r
      else
        assert forall i :: 0 <= i < |pairs| ==> pairs[i].0 != name by {
          forall i | 0 <= i < |pairs| ensures pairs[i].0 != name {
            if i > 0 { assert pairs[i] == pairs[1..][i - 1]; }
          }
        }
        r
  }

  /**
   * The token `authenticateSpotify` caches: the `access_token` parameter of the
   * redirect URL's fragment, or `null`. A token is one parameter value, so it
   * holds neither '#' nor '&'.
   */
  function TokenFromRedirect(url: string): (token: Option<string>)
    ensures token.Some? ==> '#' in url
    ensures token.Some? ==> '#' !in token.value && '&' !in token.value
  {
    match Fragment(url)
    case None => None
    case Some(fragment) =>
      SearchParamsKeepsOut(fragment, '#');
      Lookup(SearchParams(fragment), TokenKey)
  }

  /** A redirect URL without any '#' yields no token. */
  lemma NoFragmentNoToken(url: string)
    requires '#' !in url
    ensures TokenFromRedirect(url) == None
  {
  }

  /** The parameter string `n1=v1&n2=v2&...` of a list of pairs. */
  function EncodeParams(pairs: seq<Param>): string
  {
    if pairs == [] then [] else JoinWith(Pieces(pairs), '&')
  }

  function Pieces(pairs: seq<Param>): seq<string>
  {
    seq(|pairs|, i requires 0 <= i < |pairs| => pairs[i].0 + "=" + pairs[i].1)
  }

  /**
   * Pairs whose encoding parses back to themselves: no '&' anywhere, no '='
   * in a name, and no leading '?' in front of the first name.
   */
  predicate WellFormedParams(pairs: seq<Param>)
  {
    (forall i :: 0 <= i < |pairs| ==> '&' !in pairs[i].0 && '&' !in pairs[i].1 && '=' !in pairs[i].0) &&
    (pairs == [] || pairs[0].0 == [] || pairs[0].0[0] != '?')
  }

  lemma {:induction false} PairsOfPieces(pairs: seq<Param>)
    requires forall i :: 0 <= i < |pairs| ==> '=' !in pairs[i].0
    ensures PairsOf(Pieces(pairs)) == pairs
    decreases |pairs|
  {
    if pairs != [] {
      var pieces := Pieces(pairs);
      BreakAtJoin(pairs[0].0, '=', pairs[0].1);
      assert pieces[0] == pairs[0].0 + ['='] + pairs[0].1;
      assert pieces[0] != [];
      assert pieces[1..] == Pieces(pairs[1..]);
      PairsOfPieces(pairs[1..]);
      assert [pairs[0]] + pairs[1..] == pairs;
    }
  }

  /** Parsing the encoding of well-formed pairs gives back the pairs. */
  lemma ParamsRoundTrip(pairs: seq<Param>)
    requires WellFormedParams(pairs)
    ensures SearchParams(EncodeParams(pairs)) == pairs
  {
    if pairs == [] {
      assert SplitOn([], '&') == [[]];
    } else {
      var pieces := Pieces(pairs);
      var s := JoinWith(pieces, '&');
      assert s == pieces[0] + (if |pieces| == 1 then [] else ['&'] + JoinWith(pieces[1..], '&'));
      assert s[0] == pieces[0][0];
      forall i | 0 <= i < |pieces| ensures '&' !in pieces[i] {
        assert pieces[i] == pairs[i].0 + "=" + pairs[i].1;
      }
      SplitJoin(pieces, '&');
      PairsOfPieces(pairs);
    }
  }

  /** The pairs of two runs of pieces are the pairs of each, in order. */
  lemma {:induction false} PairsOfAppend(p: seq<string>, q: seq<string>)
    ensures PairsOf(p + q) == PairsOf(p) + PairsOf(q)
    decreases |p|
  {
    if p == [] {
      assert p + q == q;
    } else {
      assert (p + q)[0] == p[0];
      assert (p + q)[1..] == p[1..] + q;
      PairsOfAppend(p[1..], q);
    }
  }

  /** An empty piece anywhere yields no pair and changes nothing else. */
  lemma PairsOfSkipsEmpty(p: seq<string>, q: seq<string>)
    ensures PairsOf(p + [[]] + q) == PairsOf(p + q)
  {
    assert p + [[]] + q == p + ([[]] + q);
    assert ([[]] + q)[1..] == q;
    PairsOfAppend(p, [[]] + q);
    PairsOfAppend(p, q);
  }

  /** A non-empty piece yields exactly its own pair. */
  lemma PairsOfPiece(piece: string)
    requires piece != []
    ensures PairsOf([piece]) == [PairOf(piece)]
  {
    assert [piece][1..] == [];
  }

  /** Empty pieces at both ends yield no pairs. */
  lemma PairsOfPadded(pieces: seq<string>)
    ensures PairsOf([[]] + pieces + [[]]) == PairsOf(pieces)
  {
    PairsOfSkipsEmpty([], pieces + [[]]);
    assert [] + [[]] + (pieces + [[]]) == [[]] + pieces + [[]];
    PairsOfSkipsEmpty(pieces, []);
    assert pieces + [[]] + [] == pieces + [[]] && pieces + [] == pieces;
  }

  /**
   * Stray '&' at both ends of a parameter string, as in `&access_token=x&`,
   * are ignored: the empty pieces they make yield no pair.
   */
  lemma PaddedParamsRoundTrip(pairs: seq<Param>)
    requires WellFormedParams(pairs) && pairs != []
    ensures SearchParams("&" + EncodeParams(pairs) + "&") == pairs
  {
    var pieces := Pieces(pairs);
    var padded := [[]] + pieces + [[]];
    var s := "&" + EncodeParams(pairs) + "&";
    assert SplitOn(s, '&') == padded by {
      forall i | 0 <= i < |pieces| ensures '&' !in pieces[i] {
        assert pieces[i] == pairs[i].0 + "=" + pairs[i].1;
      }
      JoinPadded(pieces, '&');
      assert JoinWith(padded, '&') == s;
      SplitJoin(padded, '&');
    }
    assert s[0] == '&';
    PairsOfPadded(pieces);
    PairsOfPieces(pairs);
  }

  /**
   * The token is the first `access_token` value of the fragment: for a redirect
   * `base#fragment` whose fragment encodes well-formed pairs.
   */
  lemma TokenFromRedirectRoundTrip(base: string, pairs: seq<Param>)
    requires '#' !in base
    requires WellFormedParams(pairs)
    requires forall i :: 0 <= i < |pairs| ==> '#' !in pairs[i].0 && '#' !in pairs[i].1
    ensures TokenFromRedirect(base + "#" + EncodeParams(pairs)) == Lookup(pairs, TokenKey)
  {
    var fragment := EncodeParams(pairs);
    EncodedHasNo(pairs, '#');
    FragmentOfJoin(base, fragment);
    ParamsRoundTrip(pairs);
  }

  /** A character that occurs in no name and no value does not occur in the encoding. */
  lemma {:induction false} EncodedHasNo(pairs: seq<Param>, c: char)
    requires c != '=' && c != '&'
    requires forall i :: 0 <= i < |pairs| ==> c !in pairs[i].0 && c !in pairs[i].1
    ensures c !in EncodeParams(pairs)
    decreases |pairs|
  {
    if |pairs| > 1 {
      EncodedHasNo(pairs[1..], c);
      assert Pieces(pairs)[1..] == Pieces(pairs[1..]);
      assert Pieces(pairs)[0] == pairs[0].0 + "=" + pairs[0].1;
    } else if |pairs| == 1 {
      assert Pieces(pairs)[0] == pairs[0].0 + "=" + pairs[0].1;
    }
  }

  /** The fragment of `base#fragment`, where neither part holds a '#'. */
  lemma FragmentOfJoin(base: string, fragment: string)
    requires '#' !in base && '#' !in fragment
    ensures Fragment(base + "#" + fragment) == Some(fragment)
  {
    var s := base + "#" + fragment;
    assert s == base + ['#'] + fragment;
    BreakAtJoin(base, '#', fragment);
    assert SplitOn(s, '#') == [base] + SplitOn(fragment, '#');
    assert SplitOn(fragment, '#') == [fragment];
  }

  /** Only the text before a second '#' is the fragment. */
  lemma FragmentStopsAtSecondHash(base: string, fragment: string, tail: string)
    requires '#' !in base && '#' !in fragment
    ensures Fragment(base + "#" + fragment + "#" + tail) == Some(fragment)
  {
    var s := base + "#" + fragment + "#" + tail;
    var rest := fragment + "#" + tail;
    assert s == base + ['#'] + rest;
    assert rest == fragment + ['#'] + tail;
    BreakAtJoin(base, '#', rest);
    BreakAtJoin(fragment, '#', tail);
    assert SplitOn(s, '#') == [base] + SplitOn(rest, '#');
    assert SplitOn(rest, '#') == [fragment] + SplitOn(tail, '#');
  }

  // ---------------------------------------------------------------------------
  // The pipeline
  // ---------------------------------------------------------------------------

  /** How `chrome.identity.launchWebAuthFlow` settled: the redirect URL, or the message it threw. */
  datatype AuthOutcome = Redirected(responseUrl: string) | AuthFailed(message: string)

  /**
   * How the search fetch and its `json()` settled: the ids of `tracks.items`
   * (`None` when `tracks` or `items` is missing), or the message of what was thrown.
   */
  datatype SearchOutcome = SearchBody(itemIds: Option<seq<string>>) | SearchFailed(message: string)

  /** How the save-track fetch settled: the response's `ok`, or the message of what was thrown. */
  datatype LikeOutcome = LikeStatus(ok: bool) | LikeFailed(message: string)

  /** The outside world for one request: the extension's redirect URI and what each foreign call yields. */
  datatype Env = Env(redirectUri: string, auth: AuthOutcome, search: SearchOutcome, like: LikeOutcome)

  /** A foreign call the pipeline issues, with what it sends. */
  datatype Call =
    | LaunchAuthFlow(endpoint: string, query: seq<Param>, interactive: bool)
    | SearchTracks(q: string, kind: string, limit: nat, authorization: string)
    | SaveTrack(ids: string, authorization: string)

  /** What one pipeline run yields: the reply, the calls it made, and the cached token afterwards. */
  datatype Run = Run(result: OperationResult, trace: seq<Call>, token: Option<string>)

  /** `!accessToken` is false: `null` and the empty string are falsy, every other string is truthy. */
  predicate Truthy(token: Option<string>)
    ensures token == None ==> !Truthy(token)
    ensures token == Some([]) ==> !Truthy(token)
    ensures token.Some? && |token.value| > 0 ==> Truthy(token)
  {
    token.Some? && token.value != []
  }

  /** The `Authorization` header text: "Bearer " and the token; a `null` token prints as "null". */
  function Authorization(token: Option<string>): (header: string)
    ensures |header| >= 7 && header[..7] == "Bearer "
    ensures token.Some? ==> header[7..] == token.value
    ensures token.None? ==> header[7..] == "null"
  {
    "Bearer " + (if token.Some? then token.value else "null")
  }

  /** The authorization request `authenticateSpotify` launches: interactive, to the authorize endpoint, with four parameters. */
  function AuthCall(env: Env): (call: Call)
    ensures call.LaunchAuthFlow? && call.endpoint == AuthorizeEndpoint && call.interactive
    ensures |call.query| == 4
  {
    LaunchAuthFlow(AuthorizeEndpoint,
                   [("client_id", ClientId), ("response_type", "token"),
                    ("redirect_uri", env.redirectUri), ("scope", Scope)],
                   true)
  }

  /**
   * The server reads the authorization query as an implicit-grant request
   * (`response_type=token`) for this client id, redirect URI and scope.
   */
  lemma AuthCallQuery(env: Env, query: seq<Param>)
    requires query == AuthCall(env).query
    ensures Lookup(query, "client_id") == Some(ClientId)
    ensures Lookup(query, "response_type") == Some("token")
    ensures Lookup(query, "redirect_uri") == Some(env.redirectUri)
    ensures Lookup(query, "scope") == Some(Scope)
  {
    var n0, n1, n2, n3 := query[0].0, query[1].0, query[2].0, query[3].0;
    assert n0[0] == 'c' && n1[0] == 'r' && n1[2] == 's' && n2[2] == 'd' && n3[0] == 's';
    assert n0 != n1 && n0 != n2 && n1 != n2 && n0 != n3 && n1 != n3 && n2 != n3;
    LookupFirst(query, 0);
    LookupFirst(query, 1);
    LookupFirst(query, 2);
    LookupFirst(query, 3);
  }

  /** `get` returns the value of a pair whose name no earlier pair has. */
  lemma LookupFirst(pairs: seq<Param>, i: nat)
    requires i < |pairs|
    requires forall j :: 0 <= j < i ==> pairs[j].0 != pairs[i].0
    ensures Lookup(pairs, pairs[i].0) == Some(pairs[i].1)
  {
    var r := Lookup(pairs, pairs[i].0);
    var k :| 0 <= k < |pairs| && pairs[k] == (pairs[i].0, r.value) &&
             forall j :: 0 <= j < k ==> pairs[j].0 != pairs[i].0;
    assert k == i;
  }

  /**
   * The search request `handleAddToLiked` sends, before URL encoding: the
   * artist, one space and the title, for one track, with the token's header.
   */
  function SearchCall(song: SongInfo, token: Option<string>): (call: Call)
    ensures call.SearchTracks? && call.kind == "track" && call.limit == 1
    ensures call.authorization == Authorization(token)
    ensures |call.q| == |song.artist| + 1 + |song.title|
    ensures call.q[..|song.artist|] == song.artist && call.q[|song.artist|] == ' '
    ensures call.q[|song.artist| + 1..] == song.title
  {
    SearchTracks(song.artist + " " + song.title, "track", 1, Authorization(token))
  }

  /** The trace starts with an authorization attempt. */
  predicate Authorizes(trace: seq<Call>)
  {
    trace != [] && trace[0].LaunchAuthFlow?
  }

  /** `!searchData.tracks?.items?.length`: a missing list or an empty one; otherwise `items[0]` exists. */
  predicate NoItems(ids: Option<seq<string>>)
    ensures ids.None? || ids == Some([]) ==> NoItems(ids)
    ensures !NoItems(ids) ==> ids.Some? && |ids.value| > 0
  {
    ids.None? || ids.value == []
  }

  /**
   * One run of `handleAddToLiked` from the cached token `cached`. Every thrown
   * error ends the run with `{success: false, error: message}`.
   */
  function Pipeline(cached: Option<string>, song: SongInfo, env: Env): (run: Run)
    ensures Authorizes(run.trace) <==> !Truthy(cached)
    ensures !Truthy(cached) ==> run.trace[0] == AuthCall(env)
    ensures forall i :: 0 < i < |run.trace| ==> !run.trace[i].LaunchAuthFlow?
    ensures Truthy(cached) ==> run.token == cached
    ensures |run.trace| <= 3
  {
    if !Truthy(cached) && env.auth.AuthFailed? then
      Run(Failed(env.auth.message), [AuthCall(env)], cached)
    else
      var token := if Truthy(cached) then cached else TokenFromRedirect(env.auth.responseUrl);
      var searched := (if Truthy(cached) then [] else [AuthCall(env)]) + [SearchCall(song, token)];
      match env.search
      case SearchFailed(message) => Run(Failed(message), searched, token)
      case SearchBody(ids) =>
        if NoItems(ids) then Run(Failed(NotFoundError), searched, token)
        else
          var trace := searched + [SaveTrack(ids.value[0], Authorization(token))];
          match env.like
          case LikeStatus(ok) => Run(OperationResult(ok, None), trace, token)
          case LikeFailed(message) => Run(Failed(message), trace, token)
  }

  /** Whether a run gets past token acquisition. */
  predicate HasToken(cached: Option<string>, env: Env)
  {
    Truthy(cached) || env.auth.Redirected?
  }

  /** A failed authorization ends the run with its own message, before any search, and caches nothing. */
  lemma AuthFailureStopsRun(cached: Option<string>, song: SongInfo, env: Env)
    requires !Truthy(cached) && env.auth.AuthFailed?
    ensures Pipeline(cached, song, env) == Run(Failed(env.auth.message), [AuthCall(env)], cached)
  {
  }

  /** Without a cached token the redirect's token, possibly `null`, becomes the cached one. */
  lemma RedirectTokenCached(cached: Option<string>, song: SongInfo, env: Env)
    requires !Truthy(cached) && env.auth.Redirected?
    ensures Pipeline(cached, song, env).token == TokenFromRedirect(env.auth.responseUrl)
  {
    match env.search
    case SearchFailed(_) =>
    case SearchBody(ids) =>
      if !NoItems(ids) {
        match env.like
        case LikeStatus(_) =>
        case LikeFailed(_) =>
      }
  }

  /**
   * Once the token is settled the search comes next, for `artist + ' ' + title`,
   * type `track`, limit 1, with the token that is cached from then on.
   */
  lemma SearchFollowsToken(cached: Option<string>, song: SongInfo, env: Env)
    requires HasToken(cached, env)
    ensures var run := Pipeline(cached, song, env);
            var at := if Truthy(cached) then 0 else 1;
            at < |run.trace| &&
            run.trace[at] == SearchTracks(song.artist + " " + song.title, "track", 1, Authorization(run.token))
  {
    var token := if Truthy(cached) then cached else TokenFromRedirect(env.auth.responseUrl);
    var searched := (if Truthy(cached) then [] else [AuthCall(env)]) + [SearchCall(song, token)];
    var at := if Truthy(cached) then 0 else 1;
    assert searched[at] == SearchCall(song, token);
    match env.search
    case SearchFailed(_) =>
    case SearchBody(ids) =>
      if !NoItems(ids) {
        assert (searched + [SaveTrack(ids.value[0], Authorization(token))])[at] == searched[at];
        match env.like
        case LikeStatus(_) =>
        case LikeFailed(_) =>
      }
  }

  /** A search that throws ends the run with the thrown message and no save request. */
  lemma SearchFailureStopsRun(cached: Option<string>, song: SongInfo, env: Env)
    requires HasToken(cached, env) && env.search.SearchFailed?
    ensures var run := Pipeline(cached, song, env);
            run.result == Failed(env.search.message) &&
            |run.trace| == (if Truthy(cached) then 1 else 2) && !run.trace[|run.trace| - 1].SaveTrack?
  {
  }

  /** No items: exactly the not-found result, and no save request. */
  lemma NoItemsNotFound(cached: Option<string>, song: SongInfo, env: Env)
    requires HasToken(cached, env) && env.search.SearchBody? && NoItems(env.search.itemIds)
    ensures var run := Pipeline(cached, song, env);
            run.result == OperationResult(false, Some(NotFoundError)) &&
            |run.trace| == (if Truthy(cached) then 1 else 2) && !run.trace[|run.trace| - 1].SaveTrack?
  {
  }

  /**
   * With items the first one is saved, and the reply is `{success: ok}` with no
   * error field, so a non-ok save fails silently.
   */
  lemma FirstItemSaved(cached: Option<string>, song: SongInfo, env: Env)
    requires HasToken(cached, env) && env.search.SearchBody? && !NoItems(env.search.itemIds)
    ensures var run := Pipeline(cached, song, env);
            |run.trace| == (if Truthy(cached) then 2 else 3) &&
            run.trace[|run.trace| - 1] == SaveTrack(env.search.itemIds.value[0], Authorization(run.token)) &&
            (env.like.LikeStatus? ==> run.result == OperationResult(env.like.ok, None)) &&
            (env.like.LikeFailed? ==> run.result == Failed(env.like.message))
  {
  }

  /** The reply succeeds exactly when a token was had, an item was found and the save answered ok. */
  lemma SuccessExactly(cached: Option<string>, song: SongInfo, env: Env)
    ensures Pipeline(cached, song, env).result.success <==>
              HasToken(cached, env) && env.search.SearchBody? && !NoItems(env.search.itemIds) &&
              env.like == LikeStatus(true)
  {
  }

  // ---------------------------------------------------------------------------
  // A browser session: runs in sequence sharing the cache
  // ---------------------------------------------------------------------------

  /** Runs one request after another, each starting from the token the previous one left. */
  function Session(cached: Option<string>, jobs: seq<(SongInfo, Env)>): (runs: seq<Run>)
    ensures |runs| == |jobs|
    ensures jobs != [] ==> runs[0] == Pipeline(cached, jobs[0].0, jobs[0].1)
    ensures forall i :: 0 < i < |jobs| ==> runs[i] == Pipeline(runs[i - 1].token, jobs[i].0, jobs[i].1)
    decreases |jobs|
  {
    if jobs == [] then []
    else
      var first := Pipeline(cached, jobs[0].0, jobs[0].1);
      var rest := Session(first.token, jobs[1..]);
      assert forall i :: 1 < i < |jobs| ==> jobs[1..][i - 1] == jobs[i];
      [first] + rest
  }

  /**
   * Every run authorizes exactly when the token it starts from is not truthy:
   * a `null` or empty token left by one run makes the next authenticate again.
   */
  lemma SessionAuthorizes(cached: Option<string>, jobs: seq<(SongInfo, Env)>, i: nat)
    requires i < |jobs|
    ensures Authorizes(Session(cached, jobs)[i].trace) <==>
              !Truthy(if i == 0 then cached else Session(cached, jobs)[i - 1].token)
  {
    var runs := Session(cached, jobs);
    var start := if i == 0 then cached else runs[i - 1].token;
    assert runs[i] == Pipeline(start, jobs[i].0, jobs[i].1);
    var run := Pipeline(start, jobs[i].0, jobs[i].1);
    assert Authorizes(run.trace) <==> !Truthy(start);
  }

  /** A cached token is reused by every later run: none authorizes, none changes it. */
  lemma {:induction false} CachedTokenReused(cached: Option<string>, jobs: seq<(SongInfo, Env)>)
    requires Truthy(cached)
    ensures forall i :: 0 <= i < |jobs| ==>
              !Authorizes(Session(cached, jobs)[i].trace) && Session(cached, jobs)[i].token == cached
    decreases |jobs|
  {
    if jobs != [] {
      var runs := Session(cached, jobs);
      var first := Pipeline(cached, jobs[0].0, jobs[0].1);
      assert first.token == cached;
      CachedTokenReused(cached, jobs[1..]);
      assert forall i :: 1 <= i < |runs| ==> runs[i] == Session(cached, jobs[1..])[i - 1];
    }
  }

  /**
   * From a run that caches a non-empty token on, no run authorizes again
   * (`SessionAuthorizes` says that the runs before it each authorize).
   */
  lemma {:induction false} AuthorizesUntilTokenCached(cached: Option<string>, jobs: seq<(SongInfo, Env)>, k: nat)
    requires k < |jobs|
    requires Truthy(Session(cached, jobs)[k].token)
    ensures forall i :: k < i < |jobs| ==>
              !Authorizes(Session(cached, jobs)[i].trace) &&
              Session(cached, jobs)[i].token == Session(cached, jobs)[k].token
    decreases k
  {
    var runs := Session(cached, jobs);
    var first := Pipeline(cached, jobs[0].0, jobs[0].1);
    var rest := Session(first.token, jobs[1..]);
    SessionTail(cached, jobs);
    if k == 0 {
      assert Truthy(first.token);
      CachedTokenReused(first.token, jobs[1..]);
    } else {
      assert rest[k - 1] == runs[k];
      AuthorizesUntilTokenCached(first.token, jobs[1..], k - 1);
    }
    assert forall i :: 1 <= i < |runs| ==> runs[i] == rest[i - 1];
  }

  /** The first run, and the session the rest of the requests make from the token it leaves. */
  lemma SessionTail(cached: Option<string>, jobs: seq<(SongInfo, Env)>)
    requires jobs != []
    ensures Session(cached, jobs)[0] == Pipeline(cached, jobs[0].0, jobs[0].1)
    ensures Session(cached, jobs)[1..] == Session(Pipeline(cached, jobs[0].0, jobs[0].1).token, jobs[1..])
  {
  }

  // ---------------------------------------------------------------------------
  // The background context
  // ---------------------------------------------------------------------------

  /** The background context; its only state is the module-level `accessToken`. */
  class Worker {
    var accessToken: Option<string>

    /** The module-level `accessToken` starts out `null`. */
    constructor ()
      ensures accessToken == None
    {
      accessToken := None;
    }

    /**
     * `authenticateSpotify`: launches the interactive flow; on a redirect caches
     * and returns the fragment's `access_token` (possibly `null`), else rethrows.
     */
    method Authenticate(env: Env) returns (outcome: Result<Option<string>>, call: Call)
      modifies this
      ensures call == AuthCall(env)
      ensures env.auth.Redirected? ==>
                outcome == Ok(TokenFromRedirect(env.auth.responseUrl)) &&
                accessToken == TokenFromRedirect(env.auth.responseUrl)
      ensures env.auth.AuthFailed? ==>
                outcome == Err(env.auth.message) && accessToken == old(accessToken)
    {
      call := AuthCall(env);
      match env.auth
      case AuthFailed(message) =>
        outcome := Err(message);
      case Redirected(url) =>
        accessToken := TokenFromRedirect(url);
        outcome := Ok(accessToken);
    }

    /** `handleAddToLiked`: the steps in order, each thrown error caught into the reply. */
    method HandleAddToLiked(song: SongInfo, env: Env) returns (result: OperationResult, trace: seq<Call>)
      modifies this
      ensures Run(result, trace, accessToken) == Pipeline(old(accessToken), song, env)
    {
      ghost var cached := accessToken;
      trace := [];
      if !Truthy(accessToken) {
        var outcome, call := Authenticate(env);
        trace := trace + [call];
        if outcome.Err? {
          result := Failed(outcome.error);
          AuthFailureStopsRun(cached, song, env);
          return;
        }
        accessToken := outcome.value;
      }
      assert accessToken == if Truthy(cached) then cached else TokenFromRedirect(env.auth.responseUrl);
      trace := trace + [SearchCall(song, accessToken)];
      assert trace == (if Truthy(cached) then [] else [AuthCall(env)]) + [SearchCall(song, accessToken)];
      match env.search {
        case SearchFailed(message) =>
          result := Failed(message);
        case SearchBody(ids) =>
          if NoItems(ids) {
            result := Failed(NotFoundError);
            return;
          }
          trace := trace + [SaveTrack(ids.value[0], Authorization(accessToken))];
          match env.like {
            case LikeStatus(ok) =>
              result := OperationResult(ok, None);
            case LikeFailed(message) =>
              result := Failed(message);
          }
      }
    }

    /**
     * The message listener: an `addToLiked` request runs the pipeline and is
     * answered with its result; any other action is left unanswered.
     */
    method OnMessage(request: Request, env: Env) returns (reply: Option<OperationResult>, trace: seq<Call>)
      modifies this
      ensures request.action == AddToLikedAction ==>
                var run := Pipeline(old(accessToken), request.songInfo, env);
                reply == Some(run.result) && trace == run.trace && accessToken == run.token
      ensures request.action != AddToLikedAction ==>
                reply == None && trace == [] && accessToken == old(accessToken)
    {
      reply, trace := None, [];
      if request.action == AddToLikedAction {
        var result;
        result, trace := HandleAddToLiked(request.songInfo, env);
        reply := Some(result);
      }
    }
  }
}
