# KEXP-to-Spotify, modelled in Dafny

This browser extension adds a "♥ Add to Spotify" button to KEXP's player
page. Clicking it reads the playing track's artist and title from the page and
cleans them. The page agent (`content.js`) then messages the background agent
(`background.js`). The background agent obtains an OAuth implicit-grant token
once, searches Spotify for the track, saves the first hit to the user's
Liked Songs, and replies `{success, error?}`. The page agent turns that reply
into a notification and animates the button through busy, success or failure,
and back to idle.

The model has six modules:

- `Wrappers`: `Option` and `Result`.
- `Text`: the JavaScript string operations the extension relies on.
  - `trim()`, which removes the ECMAScript whitespace set `IsSpace`; the
    same set is the regular-expression class `\s`.
  - The leading-run `replace(/^[\s–-]+/, '')`.
  - `split(c)` on one character, with its inverse `JoinWith`.
- `Messages`: the request and reply values exchanged between the agents.
- `Content` (content.js):
  - title and artist cleaning;
  - the choice of notification text;
  - the `LikeButton` class, whose fields `disabled`, `visual`, `inFlight` and
    `pendingReverts` the click, reply and timer handlers update;
  - the `Page` class, which holds the buttons in the document and
    re-creates one only when none is present.
- `Background` (background.js):
  - the fragment token parse (`split('#')[1]`, then `URLSearchParams.get`);
  - the pipeline as a specification function `Pipeline` over the cached token
    and the outcomes of the foreign calls (the `Env`). It returns the reply,
    the trace of calls issued, and the token cached afterwards;
  - `Session`, which runs requests one after another;
  - the `Worker` class, whose only field is `accessToken`. `HandleAddToLiked`
    and `OnMessage` are proved equal to `Pipeline` (reply, calls issued and new
    token). `Authenticate` is specified on its own: the authorization call it
    issues, and the token `TokenFromRedirect` takes from the redirect.
- `Scenario`: the agents driven through their methods.
  - `EndToEnd`: a click over "Radiohead" / "- Creep" sends a request, and a
    fresh background context receives that same request. It authorizes once,
    takes the token from the redirect's fragment, searches for "Radiohead Creep" and saves the first hit, and the button
    shows the success notification for the reply.
  - `TwoRequests`: a second request re-authorizes exactly when the first did
    not cache a non-empty token.
  - `Rerender`: the host page drops the button and the observer puts back
    exactly one fresh, idle button.
  - `NoReply`: a click whose message channel closes without a reply (the
    callback receives `undefined`) shows the generic failure.

Foreign calls are inputs:

- `chrome.identity.launchWebAuthFlow` becomes `Env.auth`, a redirect URL or a
  thrown message.
- The search `fetch` with its `json()` becomes `Env.search`: the ids of
  `tracks.items`, `None` when that path is missing, or a thrown message.
- The save `fetch` becomes `Env.like`: `response.ok`, or a thrown message.
- `chrome.identity.getRedirectURL()` becomes `Env.redirectUri`.
- The element texts read by `querySelector(...).textContent` are the
  `Option<string>` arguments of `Click`.

Each call the pipeline makes is recorded as a `Call` value, with the query
parameters or header it sends.

Some of the code's behaviour is easy to misread; the model follows the code as written:

- `!accessToken` is JavaScript truthiness. An empty-string token, and not only
  `null`, makes the next request authenticate again (`Truthy`).
- `split('#')[1]` is the text between the first '#' and the next one. It is
  not everything after the first '#' (`FragmentStopsAtSecondHash`).
- A search that answers with a non-2xx status still goes through `json()`.
  An error body has no `tracks`, so the reply is "Song not found on Spotify".
  The API's own error is not passed on. Only a thrown error (network, bad JSON)
  is passed on verbatim.
- A non-ok save replies `{success: false}` with no `error` field, so the page
  shows the generic failure text.
- The reply re-enables the button at once. Only the visual state waits for the
  2000 ms timer, and the timer resets the visual state to idle whatever the
  button shows by then, even Busy after a second click (`RevertTimerFires`).
- The `.catch` in the message listener cannot fire, because
  `handleAddToLiked` catches every error itself. An `addToLiked` request is
  always answered with the pipeline's result (`Worker.OnMessage`).

## Model

| member | source | states |
|---|---|---|
| Text.IsSpace | content.js:104-105 | the set `trim()` removes and `\s` matches: the 25 ECMAScript WhiteSpace and LineTerminator code points (U+0009 to U+000D, U+0020, U+00A0, U+1680, U+2000 to U+200A, U+2028, U+2029, U+202F, U+205F, U+3000, U+FEFF); a definition, which every trim and title lemma takes as given |
| Text.IsTitleSeparator | content.js:105 | the regular-expression class `[\s–-]`: a character of `IsSpace`, the en dash U+2013, or the hyphen-minus; a definition |
| Text.DropLeading | content.js:105 | the result is no longer than the input, it does not start with a character of the class, and every removed leading character is in the class |
| Text.DropLeadingSuffix | content.js:105 | what the leading-run strip keeps is a suffix of its input |
| Text.DropTrailing | content.js:104 | the result is a prefix of the input, it does not end with a character of the class, and every removed trailing character is in the class |
| Text.Trim | content.js:104 | the trimmed text is no longer than the input and neither starts nor ends with whitespace |
| Text.TrimEmpty | content.js:104 | the trim is empty exactly when every character of the text is whitespace |
| Text.DropRun | content.js:105 | a run of class characters in front of text that does not start with one is removed exactly |
| Text.DropTrailingRun | content.js:104 | a run of class characters behind text that does not end with one is removed exactly |
| Text.TrimStrips | content.js:104 | whitespace, then a core with no whitespace at either end, then whitespace, trims to exactly the core |
| Text.TrimSlice | content.js:104 | the trim is a contiguous slice of the text, and everything in front of it and behind it is whitespace |
| Text.TrimTrimmed | content.js:104 | text with no whitespace at either end is its own trim |
| Text.TrimIdempotent | content.js:104 | trimming twice is trimming once |
| Text.BreakAt | background.js:28 | breaking at the first separator gives a separator-free head; with no separator the head is the whole text; otherwise head, separator and tail rebuild the text |
| Text.BreakAtFinds | background.js:28 | a separator is found exactly when it occurs in the text |
| Text.BreakAtJoin | background.js:28 | breaking `h + c + t`, where `h` has no `c`, gives back `h` and `t` |
| Text.SplitOn | background.js:28 | `split(c)` gives at least one piece, every piece is free of `c`, and joining the pieces with `c` gives back the text |
| Text.SplitJoin | background.js:28 | splitting a join of `c`-free pieces gives back the pieces |
| Text.JoinWithSnoc | background.js:28 | joining one more piece appends a separator and that piece |
| Text.JoinPadded | background.js:28 | joining with an empty piece at both ends puts a separator at both ends |
| Text.JoinWithKeepsOut | background.js:28 | a character absent from a join is absent from every piece |
| Content.CleanArtist | content.js:104 | the artist neither starts nor ends with whitespace (that it is exactly the text without its surrounding whitespace is `ArtistKeepsDash`) |
| Content.CleanTitle | content.js:105 | the title does not start with whitespace, an en dash or a hyphen, does not end with whitespace, and everything cut from the trimmed text in front of it is such a separator |
| Content.CleanTitleSuffix | content.js:105 | the title is a suffix of the trimmed text |
| Content.CleanTitleIdempotent | content.js:105 | cleaning a cleaned title changes nothing |
| Content.CleanTitleStripsRun | content.js:105 | any separator run in front of a name that neither starts with a separator nor ends in whitespace is removed, and nothing else |
| Content.CleanTitleHyphenExample | content.js:105 | "- Song Name" becomes "Song Name" |
| Content.CleanTitleEnDashExample | content.js:105 | "– Song Name" becomes "Song Name" |
| Content.CleanTitleSpaceExample | content.js:105 | "  Song Name" becomes "Song Name" |
| Content.ArtistKeepsDash | content.js:104-105 | for text made of whitespace, a core with no whitespace at either end, and whitespace, the artist is exactly the core; when the core starts with '-' the artist keeps it, while the title made from the same text is strictly shorter than the core |
| Content.SuccessText | content.js:115 | the success message contains the title and the artist verbatim |
| Content.NotFoundText | content.js:121 | the not-found message contains the title and the artist verbatim |
| Content.FailureText | content.js:120-122 | the message is the not-found text exactly when the error is "Song not found on Spotify", and the generic text in every other case |
| Content.Succeeded | content.js:111 | `response?.success`: a missing reply is not a success, and a present one succeeds exactly when its `success` is true |
| Content.ErrorOf | content.js:120 | `response?.error`: no error for a missing reply, otherwise the reply's own error field |
| Content.ResponseNotice | content.js:111-123 | the notification is of the success kind exactly for a successful reply, with the success text; otherwise it has the not-found text exactly when the error is the sentinel, and the generic text in every other case (`ResponseNoticeCases` spells out each kind of reply) |
| Content.ResponseNoticeCases | content.js:111-123 | a truthy `success` shows the success text; the not-found error shows the not-found text; any other error, a missing error field or a missing reply shows "Failed to add song. Please try again." |
| Content.LikeButton.constructor | content.js:65-67 | a new button is enabled, idle, with nothing in flight and no timer pending |
| Content.LikeButton.Click | content.js:96-110 | with both elements present on an enabled button: disabled, busy, and the request `addToLiked` with the trimmed artist and cleaned title is sent; with either element missing, or a disabled button, nothing is sent and nothing changes |
| Content.LikeButton.Respond | content.js:110-127 | the notification is the success or failure text for the captured track, of the success kind exactly when `success` is truthy; the visual state becomes Success or Failure; the button is re-enabled at once and one revert timer is scheduled |
| Content.LikeButton.RevertTimerFires | content.js:127-131 | the visual state returns to Idle and the timer is consumed; `disabled` and the in-flight request are not touched |
| Content.Page.Present | content.js:63 | `document.getElementById('spotify-like-button')` finds an element: the document holds a button; a definition |
| Content.Page.PageRemovesButton | content.js:146-152 | the host page's re-render, the change the observer watches for: no button is left in the document |
| Content.Page.CreateLikeButton | content.js:62-137 | with a button present nothing changes; otherwise exactly one fresh, enabled, idle button is appended; at most one button ever exists |
| Content.Page.OnMutation | content.js:146-150 | the observer re-creates the button only when none is present, and leaves a present one alone |
| Background.Fragment | background.js:28 | no fragment exactly when the URL has no '#'; a fragment holds no '#' |
| Background.FragmentOfJoin | background.js:28 | the fragment of `base#fragment` is `fragment` |
| Background.FragmentStopsAtSecondHash | background.js:28 | only the text between the first and the second '#' is the fragment |
| Background.PairOf | background.js:28 | a parameter splits at its first '=': the name holds no '=', and a piece without '=' is a name with the empty value |
| Background.PairsOf | background.js:28 | there are never more pairs than pieces |
| Background.PairsOfAppend | background.js:28 | the pairs of two runs of pieces are the pairs of each, in order |
| Background.PairsOfSkipsEmpty | background.js:28 | an empty piece anywhere yields no pair and leaves the other pairs as they are |
| Background.PairsOfPiece | background.js:28 | a non-empty piece yields exactly its own pair |
| Background.PairsOfPadded | background.js:28 | empty pieces at both ends yield no pairs |
| Background.PairsOfKeepsOut | background.js:28 | a character absent from every piece is absent from every name and value, and no name holds '=' |
| Background.SearchParams | background.js:28 | `new URLSearchParams`: every pair's name and value are free of '&', and its name is free of '=' (round trips: `ParamsRoundTrip`, `PaddedParamsRoundTrip`) |
| Background.SearchParamsKeepsOut | background.js:28 | a character absent from the parameter string is absent from every name and value |
| Background.Lookup | background.js:29 | `get` finds nothing exactly when no pair has the name, and otherwise returns the value of the first pair with that name |
| Background.TokenFromRedirect | background.js:28-29 | a token is found only when the URL has a '#', and it is one parameter value, holding neither '#' nor '&' (which value: `TokenFromRedirectRoundTrip`; no '#', no token: `NoFragmentNoToken`) |
| Background.LookupFirst | background.js:29 | `get` returns the value of a pair whose name no earlier pair has |
| Background.NoFragmentNoToken | background.js:28-29 | a redirect URL without '#' yields a `null` token and raises nothing |
| Background.PairsOfPieces | background.js:28 | parsing the `name=value` pieces of pairs whose names hold no '=' gives back the pairs |
| Background.PaddedParamsRoundTrip | background.js:28 | a stray '&' at both ends of the encoding of well-formed pairs, as in `&access_token=x&`, is ignored: the pairs parse back |
| Background.ParamsRoundTrip | background.js:28 | parsing the `&`-joined encoding of well-formed pairs gives back the pairs |
| Background.EncodedHasNo | background.js:28 | a character absent from every name and value is absent from the encoding |
| Background.TokenFromRedirectRoundTrip | background.js:28-29 | the token taken from `base#n1=v1&...` is the first `access_token` value among the pairs |
| Background.Truthy | background.js:39 | `!accessToken`: `null` and the empty string are falsy, every other string is truthy |
| Background.Authorization | background.js:45 | the header is "Bearer " followed by the token, or by "null" when there is none |
| Background.AuthCall | background.js:15-26 | the flow is launched interactively at the authorize endpoint with four query parameters |
| Background.AuthCallQuery | background.js:16-20 | the server reads the query as `response_type=token` for the client id, the extension's redirect URI and the scope |
| Background.SearchCall | background.js:43-46 | the search is for one track, its text the artist, one space and the title, with the token's header |
| Background.NoItems | background.js:49 | a missing or empty item list counts as none; otherwise a first item exists |
| Background.Pipeline | background.js:37-63 | a run authorizes exactly when no truthy token is cached, and then as its first call with the four fixed query parameters and `interactive: true`; it never authorizes later in the run; a truthy cached token is kept; at most three calls |
| Background.AuthFailureStopsRun | background.js:22-41 | a failed authorization replies `{success: false, error: <its message>}` after that one call, and the cache stays as it was |
| Background.RedirectTokenCached | background.js:28-41 | without a truthy cached token, the redirect's token, possibly `null`, is what is cached afterwards |
| Background.SearchFollowsToken | background.js:43-46 | once a token is settled the next call is the search for `artist + ' ' + title`, type `track`, limit 1, with header `Bearer <token>` |
| Background.SearchFailureStopsRun | background.js:44-62 | a thrown search error replies with its message and no save is issued |
| Background.NoItemsNotFound | background.js:49-51 | missing or empty items reply exactly `{success: false, error: "Song not found on Spotify"}` and no save is issued |
| Background.FirstItemSaved | background.js:53-59 | otherwise the save is the last call, for the first item's id with the same header; the reply is `{success: ok}` with no error field, or the thrown message |
| Background.SuccessExactly | background.js:37-63 | the reply succeeds exactly when a token was had, an item was found and the save answered ok |
| Background.Session | background.js:37-41 | one run per request; the first is the pipeline from the starting token and each later one is the pipeline from the token the previous run left |
| Background.SessionTail | background.js:37-41 | a session's first run is the pipeline from the starting token, and the rest is the session of the remaining requests from the token that run left |
| Background.SessionAuthorizes | background.js:39-41 | each run authorizes exactly when the token it starts from is not truthy, so a `null` or empty token left by one run makes the next authenticate again |
| Background.CachedTokenReused | background.js:39-41 | once a truthy token is cached no later run authorizes, and the token never changes |
| Background.AuthorizesUntilTokenCached | background.js:29-41 | from the first run that caches a truthy token on, no run authorizes and the token stays |
| Messages.Failed | background.js:60-62 | a caught error gives a failed reply that carries the error's message |
| Background.Worker.constructor | background.js:3 | no token at startup |
| Background.Worker.Authenticate | background.js:14-35 | the interactive flow is launched with the four query parameters; on a redirect the fragment's token is cached and returned; on failure the message is rethrown and the cache is untouched |
| Background.Worker.HandleAddToLiked | background.js:37-63 | the reply, the calls issued and the new cached token are exactly those of `Pipeline` from the old cached token |
| Background.Worker.OnMessage | background.js:5-12 | an `addToLiked` request is answered with the pipeline's reply; any other action gets no reply, issues no call and leaves the cache alone |
| Scenario.GrantRedirectToken | background.js:28-29 | a redirect with fragment `access_token=tok&token_type=Bearer` yields the token "tok" |
| Scenario.ClickOnCreep | content.js:96-109 | a fresh page's button, clicked over "Radiohead" and "- Creep", sends artist "Radiohead" and title "Creep" |
| Scenario.AnswerFirstRequest | background.js:5-63 | a fresh background context receiving an `addToLiked` request, given a non-empty token, one item and an ok save, replies success after exactly authorize, search for that request's artist and title, and save |
| Scenario.AnswerCreep | background.js:28-57 | for the request for "Radiohead" / "Creep", with the extension's own redirect URI sent and a redirect to it whose fragment is `access_token=tok&token_type=Bearer`, the calls are authorize, search "Radiohead Creep" with "Bearer tok", save "abc123" with "Bearer tok" |
| Scenario.EndToEnd | content.js:96-115 | the request the click sends is the one the background context answers, its token parsed from the fragment `access_token=tok&token_type=Bearer` of a redirect to the redirect URI the authorization sent; the result is the success notification for "Creep" by Radiohead after exactly those three calls |
| Scenario.TwoRequests | background.js:39-41 | a fresh context's first request authorizes; the second authorizes again exactly when the first did not cache a non-empty token |
| Scenario.Rerender | content.js:140-150 | after the button is created and the host page drops it, the observer leaves exactly one fresh, enabled, idle button |
| Scenario.NoReply | content.js:107-123 | a click sends the cleaned track; when its message channel closes without a reply (the callback receives `undefined`), the callback shows "Failed to add song. Please try again." |

## Left out

- Styling and animation are not modelled.
  - The CSS strings, the injected keyframes, the hover effects, the label
    markup and the notification slide-in and slide-out (content.js:2-60,
    67-94, 102, 112-114, 117-119, 128-130) are presentational DOM work.
  - `Visual` stands for all of a button's look, and a notification is modelled
    by its text and kind only.
  - The notification's own 3000 ms removal timer is not modelled.
- `MutationObserver`, the window load listener and `setTimeout` are not
  modelled as mechanisms. Only their effects are: `Page.OnMutation`, a second
  `Page.CreateLikeButton`, and the explicit `LikeButton.RevertTimerFires`
  event. The order in which those events arrive is up to the caller.
- `chrome.identity`, `fetch`, `response.json()` and the message channel are
  foreign browser and network calls. Their outcomes are the `Env` inputs, and
  a missing reply is `None`.
- `encodeURIComponent`, the URL serialisation of the authorize query, and
  percent and '+' decoding in `URLSearchParams` are library behaviour. The
  search query is modelled before encoding, the authorize query as its list
  of pairs, and fragment values as raw text.
- Two pipeline runs interleaving at an `await`, racing to authenticate, are a
  concurrency matter. Runs are modelled one after another (`Session`).
- `console.error` logging is not modelled.
- Background.Worker.OnMessage: a request with no `songInfo` is not
  modelled. Such a request would fail with a TypeError message after
  authenticating, but a `Request` always carries a `SongInfo`.
- Background.Worker.Authenticate: a flow that resolves without a URL is not
  modelled. There `split` would throw a TypeError that is rethrown, but the
  redirect is always a string here.
- The `MutationObserver` also fires for the button's own insertion. That
  call finds the button present and does nothing, which `Page.OnMutation`
  covers.
