/**
 * The page agent (content.js): it cleans the track text read from the page,
 * chooses the notification text for a reply, and drives the like button
 * through Idle, Busy, Success/Failure and back to Idle.
 */
module Content {
  import opened Wrappers
  import opened Text
  import opened Messages

  /** The message for every failure other than "not found". */
  const GenericFailureText := "Failed to add song. Please try again."

  // ---------------------------------------------------------------------------
  // Track text
  // ---------------------------------------------------------------------------

  /** The artist sent to the background agent: the element's text, trimmed and nothing more. */
  function CleanArtist(text: string): (artist: string)
    ensures artist == [] || (!IsSpace(artist[0]) && !IsSpace(artist[|artist| - 1]))
  {
    Trim(text)
  }

  /**
   * The title sent to the background agent: the element's text, trimmed, then
   * with its leading run of whitespace, en dashes and hyphens removed.
   */
  function CleanTitle(text: string): (title: string)
    ensures title == [] || !IsTitleSeparator(title[0])
    ensures title == [] || !IsSpace(title[|title| - 1])
    ensures |title| <= |Trim(text)|
    ensures forall i :: 0 <= i < |Trim(text)| - |title| ==> IsTitleSeparator(Trim(text)[i])
  {
    DropLeadingSuffix(Trim(text), TitleSeparator);
    DropLeading(Trim(text), TitleSeparator)
  }

  /** The title is what remains of the trimmed text once its leading separators are gone. */
  lemma CleanTitleSuffix(text: string)
    ensures CleanTitle(text) == Trim(text)[|Trim(text)| - |CleanTitle(text)|..]
  {
    DropLeadingSuffix(Trim(text), TitleSeparator);
  }

  /** Cleaning a cleaned title changes nothing. */
  lemma CleanTitleIdempotent(text: string)
    ensures CleanTitle(CleanTitle(text)) == CleanTitle(text)
  {
    var title := CleanTitle(text);
    assert title == [] || (!IsSpace(title[0]) && !IsSpace(title[|title| - 1]));
    TrimTrimmed(title);
    assert CleanTitle(title) == DropLeading(title, TitleSeparator);
    DropLeadingStops(title, TitleSeparator);
  }

  /**
   * Any run of whitespace, en dashes and hyphens in front of a name that
   * neither starts with one nor ends in whitespace is removed, and nothing else.
   */
  lemma CleanTitleStripsRun(text: string, run: string, name: string)
    requires text == run + name
    requires forall i :: 0 <= i < |run| ==> IsTitleSeparator(run[i])
    requires name != [] && !IsTitleSeparator(name[0]) && !IsSpace(name[|name| - 1])
    ensures CleanTitle(text) == name
  {
    var s := text;
    var left := DropLeading(s, Whitespace);
    DropLeadingSuffix(s, Whitespace);
    assert s[|run|] == name[0];
    var j := |s| - |left|;
    assert left == run[j..] + name;
    assert left[|left| - 1] == name[|name| - 1];
    assert DropTrailing(left, Whitespace) == left;
    DropRun(TitleSeparator, run[j..], name);
  }

  /** "- Song Name" is cleaned to "Song Name". */
  lemma CleanTitleHyphenExample()
    ensures CleanTitle("- Song Name") == "Song Name"
  {
    CleanTitleExample("- Song Name", "- ", "Song Name");
  }

  /** "– Song Name", with an en dash, is cleaned to "Song Name". */
  lemma CleanTitleEnDashExample()
    ensures CleanTitle([EnDash] + " Song Name") == "Song Name"
  {
    CleanTitleExample([EnDash] + " Song Name", [EnDash, ' '], "Song Name");
  }

  /** "  Song Name" is cleaned to "Song Name". */
  lemma CleanTitleSpaceExample()
    ensures CleanTitle("  Song Name") == "Song Name"
  {
    CleanTitleExample("  Song Name", "  ", "Song Name");
  }

  /** The three example titles: a separator run of two characters before "Song Name". */
  lemma CleanTitleExample(text: string, run: string, name: string)
    requires name == "Song Name"
    requires run == "- " || run == [EnDash, ' '] || run == "  "
    requires text == run + name
    ensures CleanTitle(text) == name
  {
    assert !IsTitleSeparator(name[0]) && !IsSpace(name[|name| - 1]);
    assert IsTitleSeparator(run[0]) && IsTitleSeparator(run[1]);
    CleanTitleStripsRun(text, run, name);
  }

  /**
   * The artist is the element's text with exactly its surrounding whitespace
   * removed; in particular a leading dash is kept, which the title would lose.
   */
  lemma ArtistKeepsDash(lead: string, core: string, trail: string)
    requires forall i :: 0 <= i < |lead| ==> IsSpace(lead[i])
    requires forall i :: 0 <= i < |trail| ==> IsSpace(trail[i])
    requires core != [] && !IsSpace(core[0]) && !IsSpace(core[|core| - 1])
    ensures CleanArtist(lead + core + trail) == core
    ensures core[0] == '-' ==> |CleanTitle(lead + core + trail)| < |core|
  {
    TrimStrips(lead, core, trail);
    DropLeadingSuffix(core, TitleSeparator);
  }

  // ---------------------------------------------------------------------------
  // Notification text
  // ---------------------------------------------------------------------------

  /** The styling variant of a notification. */
  datatype NoticeKind = SuccessNotice | ErrorNotice

  /** A notification appended to the page. */
  datatype Notification = Notification(text: string, kind: NoticeKind)

  /** `part` occurs somewhere in `s`. */
  predicate Contains(s: string, part: string)
  {
    exists i :: 0 <= i <= |s| && part <= s[i..]
  }

  /** The success message; it names the track and the artist verbatim. */
  function SuccessText(title: string, artist: string): (text: string)
    ensures Contains(text, title) && Contains(text, artist)
  {
    var text := "Added \"" + title + "\" by " + artist + " to your Liked Songs";
    assert title <= text[7..];
    assert artist <= text[7 + |title| + 5..];
    text
  }

  /** The tailored message for the background agent's not-found error; it names the track and the artist verbatim. */
  function NotFoundText(title: string, artist: string): (text: string)
    ensures Contains(text, title) && Contains(text, artist)
  {
    var text := "Couldn't find \"" + title + "\" by " + artist + " on Spotify";
    assert title <= text[15..];
    assert artist <= text[15 + |title| + 5..];
    text
  }

  /**
   * The failure message: the tailored one exactly when the error is the
   * not-found sentinel, and the generic one otherwise (another message, or no
   * error field, or no reply at all).
   */
  function FailureText(error: Option<string>, title: string, artist: string): (text: string)
    ensures text == NotFoundText(title, artist) <==> error == Some(NotFoundError)
    ensures text != NotFoundText(title, artist) <==> text == GenericFailureText
  {
    assert GenericFailureText[0] != NotFoundText(title, artist)[0];
    if error == Some(NotFoundError) then NotFoundText(title, artist) else GenericFailureText
  }

  /** `response?.success` is truthy: a missing reply is not a success. */
  predicate Succeeded(response: Option<OperationResult>)
    ensures response.None? ==> !Succeeded(response)
    ensures response.Some? ==> (Succeeded(response) <==> response.value.success)
  {
    response.Some? && response.value.success
  }

  /** `response?.error`: `undefined` for a missing reply, otherwise the reply's error field. */
  function ErrorOf(response: Option<OperationResult>): (error: Option<string>)
    ensures response.None? ==> error.None?
    ensures response.Some? ==> error == response.value.error
  {
    if response.Some? then response.value.error else None
  }

  /**
   * The notification the response callback shows for the track it captured:
   * of the success kind exactly for a successful reply, with the success text;
   * otherwise the not-found text exactly for the sentinel error, and the
   * generic text for anything else.
   */
  function ResponseNotice(response: Option<OperationResult>, song: SongInfo): (notice: Notification)
    ensures notice.kind == SuccessNotice <==> Succeeded(response)
    ensures Succeeded(response) ==> notice.text == SuccessText(song.title, song.artist)
    ensures !Succeeded(response) ==>
              (notice.text == NotFoundText(song.title, song.artist) <==> ErrorOf(response) == Some(NotFoundError))
    ensures !Succeeded(response) && ErrorOf(response) != Some(NotFoundError) ==> notice.text == GenericFailureText
  {
    if Succeeded(response) then Notification(SuccessText(song.title, song.artist), SuccessNotice)
    else Notification(FailureText(ErrorOf(response), song.title, song.artist), ErrorNotice)
  }

  /** What each kind of reply shows. */
  lemma ResponseNoticeCases(song: SongInfo, error: Option<string>)
    ensures ResponseNotice(Some(OperationResult(true, error)), song)
         == Notification(SuccessText(song.title, song.artist), SuccessNotice)
    ensures ResponseNotice(Some(Failed(NotFoundError)), song)
         == Notification(NotFoundText(song.title, song.artist), ErrorNotice)
    ensures error != Some(NotFoundError) ==>
              (ResponseNotice(Some(OperationResult(false, error)), song)
               == Notification(GenericFailureText, ErrorNotice))
    ensures ResponseNotice(None, song) == Notification(GenericFailureText, ErrorNotice)
  {
  }

  // ---------------------------------------------------------------------------
  // The like button
  // ---------------------------------------------------------------------------

  /** What the button shows: its label, colour and animation taken together. */
  datatype Visual = Idle | Busy | Success | Failure

  /** One button element created by `CreateLikeButton`, with its click and reply handlers. */
  class LikeButton {
    var disabled: bool
    var visual: Visual
    /** The track captured by the pending reply callback, if a request is in flight. */
    var inFlight: Option<SongInfo>
    /** Revert timers scheduled by reply callbacks that have not fired yet. */
    var pendingReverts: nat

    /** The button is disabled exactly while a request is in flight, and only then can it look busy. */
    ghost predicate Valid()
      reads this
    {
      (disabled <==> inFlight.Some?) && (visual == Busy ==> inFlight.Some?)
    }

    /** A fresh button: enabled, showing the idle label, nothing pending. */
    constructor ()
      ensures Valid()
      ensures !disabled && visual == Idle && inFlight == None && pendingReverts == 0
    {
      disabled := false;
      visual := Idle;
      inFlight := None;
      pendingReverts := 0;
    }

    /**
     * A click, given the text of the artist and the title elements when the page
     * has them. With both present the button turns busy and disabled and the
     * request is sent; otherwise nothing happens. A disabled button receives no
     * clicks.
     */
    method Click(artistText: Option<string>, titleText: Option<string>) returns (sent: Option<Request>)
      requires Valid()
      modifies this
      ensures Valid()
      ensures old(disabled) || artistText.None? || titleText.None? ==>
                sent == None && unchanged(this)
      ensures !old(disabled) && artistText.Some? && titleText.Some? ==>
                var song := SongInfo(CleanArtist(artistText.value), CleanTitle(titleText.value));
                sent == Some(Request(AddToLikedAction, song)) &&
                disabled && visual == Busy && inFlight == Some(song) &&
                pendingReverts == old(pendingReverts)
    {
      if disabled || artistText.None? || titleText.None? {
        return None;
      }
      var song := SongInfo(CleanArtist(artistText.value), CleanTitle(titleText.value));
      disabled, visual, inFlight := true, Busy, Some(song);
      sent := Some(Request(AddToLikedAction, song));
    }

    /**
     * The reply callback: shows success or failure with its notification,
     * re-enables the button at once, and schedules the revert timer.
     */
    method Respond(response: Option<OperationResult>) returns (notice: Notification)
      requires Valid() && inFlight.Some?
      modifies this
      ensures Valid()
      ensures notice == ResponseNotice(response, old(inFlight).value)
      ensures notice.kind == SuccessNotice <==> Succeeded(response)
      ensures visual == (if Succeeded(response) then Success else Failure)
      ensures !disabled && inFlight == None
      ensures pendingReverts == old(pendingReverts) + 1
    {
      var song := inFlight.value;
      if Succeeded(response) {
        visual := Success;
        notice := Notification(SuccessText(song.title, song.artist), SuccessNotice);
      } else {
        visual := Failure;
        notice := Notification(FailureText(ErrorOf(response), song.title, song.artist), ErrorNotice);
      }
      disabled := false;
      inFlight := None;
      pendingReverts := pendingReverts + 1;
    }

    /**
     * The revert timer, 2000 ms after a reply: the idle look comes back,
     * whatever the button shows by then; `disabled` is not touched.
     */
    method RevertTimerFires()
      requires Valid() && pendingReverts > 0
      modifies this
      ensures Valid()
      ensures visual == Idle && pendingReverts == old(pendingReverts) - 1
      ensures disabled == old(disabled) && inFlight == old(inFlight)
    {
      visual := Idle;
      pendingReverts := pendingReverts - 1;
    }
  }

  /** The document, as far as the button is concerned. */
  class Page {
    /** The elements of the document whose id is `spotify-like-button`, in document order. */
    var buttons: seq<LikeButton>

    /** At most one button is ever present. */
    ghost predicate Valid()
      reads this
    {
      |buttons| <= 1
    }

    /** `document.getElementById('spotify-like-button')` finds an element. */
    predicate Present()
      reads this
    {
      buttons != []
    }

    /** The document the script is injected into, before it creates its button. */
    constructor ()
      ensures Valid() && buttons == []
    {
      buttons := [];
    }

    /**
     * `createLikeButton`, also run on the window's load event: returns at once
     * when a button is present, else appends a fresh idle one.
     */
    method CreateLikeButton()
      requires Valid()
      modifies this
      ensures Valid() && Present()
      ensures old(Present()) ==> buttons == old(buttons)
      ensures !old(Present()) ==>
                |buttons| == 1 && fresh(buttons[0]) && buttons[0].Valid() &&
                !buttons[0].disabled && buttons[0].visual == Idle &&
                buttons[0].inFlight == None && buttons[0].pendingReverts == 0
    {
      if Present() {
        return;
      }
      var button := new LikeButton();
      buttons := buttons + [button];
    }

    /** The host page re-renders and drops the button from the document. */
    method PageRemovesButton()
      requires Valid()
      modifies this
      ensures Valid() && buttons == []
    {
      buttons := [];
    }

    /** The mutation observer's callback: re-create the button only when it is absent. */
    method OnMutation()
      requires Valid()
      modifies this
      ensures Valid() && Present()
      ensures old(Present()) ==> buttons == old(buttons)
      ensures !old(Present()) ==>
                |buttons| == 1 && fresh(buttons[0]) && buttons[0].Valid() &&
                !buttons[0].disabled && buttons[0].visual == Idle
    {
      if !Present() {
        CreateLikeButton();
      }
    }
  }
}
