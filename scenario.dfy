/**
 * The two agents together: a fresh page and a fresh background context,
 * exercised through their methods only.
 */
module Scenario {
  import opened Wrappers
  import opened Text
  import opened Messages
  import opened Content
  import opened Background

  /** The extension's identity redirect URI. */
  const RedirectUri := "https://extension-id.chromiumapp.org/"

  /** The fragment parameters the authorization server returns. */
  const GrantParams: seq<Param> := [("access_token", "tok"), ("token_type", "Bearer")]

  /** A redirect to the extension whose fragment carries the token "tok". */
  lemma GrantRedirectToken()
    ensures TokenFromRedirect(RedirectUri + "#" + EncodeParams(GrantParams)) == Some("tok")
  {
    TokenFromRedirectRoundTrip(RedirectUri, GrantParams);
  }

  /** "Radiohead" needs no trimming. */
  lemma RadioheadClean(artist: string)
    requires artist == "Radiohead"
    ensures CleanArtist(artist) == artist
  {
    assert !IsSpace(artist[0]) && !IsSpace(artist[|artist| - 1]);
    TrimTrimmed(artist);
  }

  /** "- Creep" is cleaned to "Creep". */
  lemma CreepClean(title: string, run: string, name: string)
    requires title == "- Creep" && run == "- " && name == "Creep"
    ensures CleanTitle(title) == name
  {
    assert !IsTitleSeparator(name[0]) && !IsSpace(name[|name| - 1]);
    assert IsTitleSeparator(run[0]) && IsTitleSeparator(run[1]);
    CleanTitleStripsRun(title, run, name);
  }

  /** A fresh page's button, clicked over "Radiohead" and "- Creep", sends the cleaned track. */
  method ClickOnCreep() returns (button: LikeButton, sent: Option<Request>)
    ensures fresh(button) && button.Valid() && button.inFlight == Some(SongInfo("Radiohead", "Creep"))
    ensures sent == Some(Request(AddToLikedAction, SongInfo("Radiohead", "Creep")))
  {
    var artistText, titleText, title := "Radiohead", "- Creep", "Creep";
    RadioheadClean(artistText);
    CreepClean(titleText, "- ", title);
    var page := new Page();
    page.CreateLikeButton();
    button := page.buttons[0];
    sent := button.Click(Some(artistText), Some(titleText));
  }

  /**
   * A fresh background context answers an `addToLiked` request whose
   * authorization yields a non-empty token and whose search finds one item
   * that is saved ok.
   */
  method AnswerFirstRequest(request: Request, env: Env, token: string, id: string)
    returns (reply: Option<OperationResult>, trace: seq<Call>)
    requires request.action == AddToLikedAction
    requires env.auth.Redirected? && TokenFromRedirect(env.auth.responseUrl) == Some(token) && token != []
    requires env.search == SearchBody(Some([id])) && env.like == LikeStatus(true)
    ensures reply == Some(OperationResult(true, None))
    ensures trace == [AuthCall(env),
                      SearchTracks(request.songInfo.artist + " " + request.songInfo.title, "track", 1, "Bearer " + token),
                      SaveTrack(id, "Bearer " + token)]
  {
    var song := request.songInfo;
    RedirectTokenCached(None, song, env);
    FirstItemSaved(None, song, env);
    SearchFollowsToken(None, song, env);
    var worker := new Worker();
    reply, trace := worker.OnMessage(request, env);
  }

  /**
   * The background side of `EndToEnd`: it answers the request the click sent,
   * with an authorization that redirects to `RedirectUri` with the grant's
   * fragment.
   */
  method AnswerCreep(request: Request, env: Env) returns (reply: Option<OperationResult>, trace: seq<Call>)
    requires request == Request(AddToLikedAction, SongInfo("Radiohead", "Creep"))
    requires env.redirectUri == RedirectUri
    requires env.auth == Redirected(RedirectUri + "#" + EncodeParams(GrantParams))
    requires env.search == SearchBody(Some(["abc123"])) && env.like == LikeStatus(true)
    ensures reply == Some(OperationResult(true, None))
    ensures trace == [AuthCall(env),
                      SearchTracks("Radiohead Creep", "track", 1, "Bearer tok"),
                      SaveTrack("abc123", "Bearer tok")]
  {
    GrantRedirectToken();
    reply, trace := AnswerFirstRequest(request, env, "tok", "abc123");
    CreepQuery("Radiohead", "Creep", "Radiohead Creep");
    TokHeader("tok", "Bearer tok");
  }

  // The two lemmas below only evaluate a concatenation of string literals.
  // Taking the literals as parameters keeps the solver from unfolding them
  // inside `AnswerCreep`, where the same facts as plain assertions are costly.

  /** The search text for "Radiohead" and "Creep". */
  lemma CreepQuery(artist: string, title: string, q: string)
    requires artist == "Radiohead" && title == "Creep" && q == "Radiohead Creep"
    ensures artist + " " + title == q
  {
  }

  /** The header for the token "tok". */
  lemma TokHeader(token: string, header: string)
    requires token == "tok" && header == "Bearer tok"
    ensures "Bearer " + token == header
  {
  }

  /**
   * A page with "Radiohead" and "- Creep", a background context with no token,
   * an authorization that redirects with the fragment
   * `access_token=tok&token_type=Bearer`, and a search that finds "abc123": the
   * request the click sends gets one authorization, a search for
   * "Radiohead Creep", a save of "abc123", and the success notification.
   */
  method EndToEnd(env: Env) returns (notice: Notification, trace: seq<Call>)
    requires env.redirectUri == RedirectUri
    requires env.auth == Redirected(RedirectUri + "#" + EncodeParams(GrantParams))
    requires env.search == SearchBody(Some(["abc123"])) && env.like == LikeStatus(true)
    ensures notice == Notification(SuccessText("Creep", "Radiohead"), SuccessNotice)
    ensures trace == [AuthCall(env),
                      SearchTracks("Radiohead Creep", "track", 1, "Bearer tok"),
                      SaveTrack("abc123", "Bearer tok")]
  {
    var button, sent := ClickOnCreep();
    var reply;
    reply, trace := AnswerCreep(sent.value, env);
    notice := button.Respond(reply);
  }

  /**
   * Two requests to a fresh background context: the first always authorizes;
   * the second authorizes again exactly when the first did not cache a
   * non-empty token.
   */
  method TwoRequests(song1: SongInfo, env1: Env, song2: SongInfo, env2: Env)
    returns (trace1: seq<Call>, trace2: seq<Call>)
    ensures Authorizes(trace1)
    ensures Authorizes(trace2) <==>
              !(env1.auth.Redirected? && Truthy(TokenFromRedirect(env1.auth.responseUrl)))
  {
    var worker := new Worker();
    var reply1, reply2;
    reply1, trace1 := worker.OnMessage(Request(AddToLikedAction, song1), env1);
    var cached := worker.accessToken;
    assert cached == if env1.auth.Redirected? then TokenFromRedirect(env1.auth.responseUrl) else None by {
      if env1.auth.Redirected? {
        RedirectTokenCached(None, song1, env1);
      } else {
        AuthFailureStopsRun(None, song1, env1);
      }
    }
    reply2, trace2 := worker.OnMessage(Request(AddToLikedAction, song2), env2);
  }

  /**
   * A click whose message port closes without a reply (the background context
   * went away before answering): the reply callback gets no response and shows
   * the generic failure.
   */
  method NoReply(artistText: string, titleText: string) returns (sent: Option<Request>, notice: Notification)
    ensures sent == Some(Request(AddToLikedAction, SongInfo(CleanArtist(artistText), CleanTitle(titleText))))
    ensures notice == Notification(GenericFailureText, ErrorNotice)
  {
    var button := new LikeButton();
    sent := button.Click(Some(artistText), Some(titleText));
    notice := button.Respond(None);
  }

  /**
   * The host page re-renders and drops the button; the mutation observer then
   * puts back exactly one fresh, enabled, idle button.
   */
  method Rerender() returns (page: Page)
    ensures fresh(page) && page.Valid() && |page.buttons| == 1
    ensures fresh(page.buttons[0]) && page.buttons[0].Valid()
    ensures !page.buttons[0].disabled && page.buttons[0].visual == Idle
  {
    page := new Page();
    page.CreateLikeButton();
    page.PageRemovesButton();
    page.OnMutation();
  }
}
