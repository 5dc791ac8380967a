/**
 * The values the page agent (content.js) and the background agent
 * (background.js) exchange through the extension's message channel.
 */
module Messages {
  import opened Wrappers

  /** The only action the background agent serves. */
  const AddToLikedAction := "addToLiked"

  /** The error the pipeline raises when the search finds nothing; the page agent matches it exactly. */
  const NotFoundError := "Song not found on Spotify"

  /** The `songInfo` payload: the cleaned artist and title of the playing track. */
  datatype SongInfo = SongInfo(artist: string, title: string)

  /** A request message `{action, songInfo}`. */
  datatype Request = Request(action: string, songInfo: SongInfo)

  /** The reply `{success, error?}`; `error` is `None` when the field is absent. */
  datatype OperationResult = OperationResult(success: bool, error: Option<string>)

  /** The reply built by a `catch` block: a failure that carries the caught message. */
  function Failed(message: string): (reply: OperationResult)
    ensures !reply.success && reply.error == Some(message)
  {
    OperationResult(false, Some(message))
  }
}
